# Addition server, modelled in Dafny

This project models the core of a small addition web service and of the TODO
list in its front end.

- **AdderService** (`adder_service.dfy`). `sum` adds two numbers with no checks. The
  operands are JavaScript safe integers, and the result is their sum rounded to the
  nearest IEEE-754 double, as JavaScript's `+` rounds it. The lemmas show that a sum
  inside the safe range is exact, and they give the rounding beyond it.
- **AdderController** (`adder_controller.dfy`). This is `getSum`, the handler of
  `GET /sum/:i/:j`.
  - It converts both path parameters.
  - If either one is not finite, it answers 400 with one uniform error body and
    returns early.
  - Otherwise it calls the service and echoes the operands and the sum with the
    default status 200.
  - Anything the service throws becomes a 500 that carries the error's message.

  `GetSum` is a method that writes into a mutable `Http.Response`. It is proved
  against the pure `Outcome`/`ReplyOf` functions.
- **ExpressApp** and **RoutePaths** (`express_app.dfy`, `route_paths.dfy`). These
  model `createApp`.
  - `CreateApp` builds the application's layer stack by calling `App.Use` and
    `App.Get` in the source's order.
  - Requests are served by a pure first-match walk over that stack. It covers
    route path compilation and segment matching with named parameters. Routing
    takes URLs that start with '/', looks only at the path before any '?', matches literal segments without
    regard to ASCII case, allows one trailing slash, and lets a GET route answer
    HEAD. It also covers the 404 fallback and the error handler that a throwing
    handler falls through to.
  - `ServeFollowsRouteTable` shows that this walk matches a three-line route table.
    The other lemmas about the application follow from it.
- **ToDo** (`todo_app.dfy`). `handleAdd` and `handleDelete` of the TODO component are
  methods of a class with the two state variables `todoList` and `itemKey`.
  - The class keeps an invariant: keys are distinct, all below `itemKey`, and the
    set of keys issued so far is exactly `0 .. itemKey - 1`.
  - Deletion is the pure filter `WithoutKey`, and its properties are lemmas.

`http.dfy` holds the shared values: `Option`, JSON bodies, replies, and the response
object.

## Model

| member | source | states |
|---|---|---|
| AdderService.DoubleIntegersUpTo2To54 | src/adderService.ts:15 | Every integer up to 2^53 in magnitude, and every even one up to 2^54, is a double. |
| AdderService.OddBeyond2To53 | src/adderService.ts:15 | An odd integer beyond 2^53 in magnitude is not a double. |
| AdderService.EvenNeighbour | src/adderService.ts:15 | For an odd integer between 2^53 and 2^54 in magnitude, the neighbour chosen is a double, 1 away, and a multiple of 4, so its significand is even (ties to even). |
| AdderService.RoundToDouble | src/adderService.ts:15 | The result is an integer a double can hold, at most 1 from the input. It equals the input exactly when the input is such an integer. Otherwise it is the neighbour that ends in an even significand. |
| AdderService.RoundToDoubleIsNearest | src/adderService.ts:15 | No double integer is closer to the input than the rounded value. |
| AdderService.Sum | src/adderService.ts:14-16 | `sum` returns a double at most 1 from the exact sum of the two safe integers. No operand is checked. |
| AdderService.SumExactIff | src/adderService.ts:15 | The sum is exact if and only if the exact sum is representable. |
| AdderService.SumIsNearestDouble | src/adderService.ts:15 | No double lies closer to the exact sum than the returned value. |
| AdderService.SumExactInSafeRange | src/adderService.ts:14-16 | A sum that stays within the safe integers is returned exactly. |
| AdderService.SumZeroIdentity | src/adderService.test.ts:27-35 | Adding zero on either side returns the other operand. |
| AdderService.SumCommutes | src/adderService.ts:15 | The operand order does not matter. |
| AdderService.SumExamples | src/adderService.test.ts:12-50 | The integer test cases: 5+3=8, -5+-3=-8, 10+-3=7, 0+5=5, 0+0=0, MAX_SAFE_INTEGER+0 and MIN_SAFE_INTEGER+0. |
| AdderService.SumRoundsBeyondSafeRange | src/adderService.ts:15 | Past the safe range the sum is inexact: MAX_SAFE_INTEGER+2 gives 2^53, and MAX_SAFE_INTEGER+4 gives 2^53+4. |
| Http.Response.constructor | src/adderController.ts:11 | A fresh response has status 200 and no body yet. |
| Http.Response.Status | src/adderController.ts:19 | `status(code)` sets the status code and leaves the body alone. |
| Http.Response.Send | src/adderController.ts:28-32 | `send(body)` writes the body, counts one send, and leaves the status alone. |
| AdderController.AdderServiceCall | src/adderController.ts:25 | The real service call: it always returns `Sum` of the two operands and never throws. |
| AdderController.MessageOf | src/adderController.ts:35 | The message of a caught value: an Error's own message, or 'Unknown error occurred' for anything else. |
| AdderController.Outcome | src/adderController.ts:14-37 | The outcome of a request: invalid when either converted parameter is not finite, and then the service is not called; otherwise the service's return, or the message of what it threw. |
| AdderController.BodyOf | src/adderController.ts:19-36 | The body for each outcome: `{error:'Invalid number parameters'}`, `{firstNumber, secondNumber, sum}`, or `{error: message}`. |
| AdderController.StatusOf | src/adderController.ts:19-36 | The status for each outcome: 400, the default 200, or 500. |
| AdderController.GetSum | src/adderController.ts:11-38 | Exactly one body is sent, and it is the outcome's body. The status becomes 400 or 500 on the error paths and is left untouched on success. |
| AdderController.HandleFresh | src/adderController.ts:11-38 | On a fresh response the handler leaves exactly `ReplyOf(Outcome(...))`. |
| AdderController.InvalidIff | src/adderController.ts:18-21 | The request is rejected exactly when a parameter is not finite, and the rejection is 400 `{error:'Invalid number parameters'}`. |
| AdderController.InvalidReplyIsUniform | src/adderController.ts:18-19 | A bad first parameter and a bad second parameter give the same reply, so the reply does not say which parameter failed. |
| AdderController.MissingParametersRejected | src/adderController.ts:14-19 | With no parameters the reply is the same 400. |
| AdderController.InvalidIgnoresService | src/adderController.ts:18-21 | On invalid input the service is never consulted: any two services give the same outcome. |
| AdderController.ValidOutcome | src/adderController.ts:23-37 | With finite operands, a return gives 200 `{firstNumber, secondNumber, sum}`. A thrown Error gives 500 with its message. A thrown non-Error gives 500 'Unknown error occurred'. |
| AdderController.StatusIdentifiesOutcome | src/adderController.ts:18-37 | 400, 200 and 500 correspond one to one with the three outcomes. |
| AdderController.ReplyIsFaithful | src/adderController.ts:28-36 | Distinct outcomes give distinct replies. |
| AdderController.RealServiceNeverFails | src/adderController.ts:23-37 | With the real service the 500 branch is unreachable, and an in-range sum is reported exactly. |
| AdderController.ControllerExamples | src/adderController.test.ts:36-88 | '5','3' gives 8 and '-2','3' gives 1, both with 200. 'abc' or 'xyz' in either parameter gives the 400 body. |
| RoutePaths.Split | src/express.ts:27-32 | Splitting a path at '/' yields at least one piece. |
| RoutePaths.SplitAfterPiece | src/express.ts:27-32 | A slash-free prefix stays at the front of the first piece. |
| RoutePaths.SplitJoin | src/express.ts:27-32 | Splitting undoes joining for slash-free pieces. |
| RoutePaths.JoinSplit | src/express.ts:27-32 | Joining undoes splitting, so no character of a path is lost. |
| RoutePaths.Compile | src/express.ts:27-32 | A route path compiles to one segment per piece after its leading '/': a parameter for a piece starting with ':', a literal otherwise. |
| RoutePaths.PathSegments | src/express.ts:27-32 | A path has segments exactly when it is empty or starts with '/'. They are then the pieces that follow the leading empty one. |
| RoutePaths.PathSegmentsJoin | src/express.ts:27-32 | For a path starting with '/', a leading '/' followed by the segments joined by '/' gives the path back. |
| RoutePaths.PathOf | src/express.ts:27-32 | The path part of a URL is a prefix of it with no '?', and the URL continues after it with a '?' or not at all. |
| RoutePaths.PathOfQuery | src/express.ts:27-32 | A URL without '?' is all path. With a query string appended, the path is what precedes the '?'. |
| RoutePaths.RequestSegments | src/express.ts:27-32 | The segments a request is routed by: those of the URL's path part. |
| RoutePaths.LowerEqualIff | src/express.ts:27-32 | Two strings lower-case alike if and only if they have the same length and agree at every position up to ASCII case, where 'same up to ASCII case' is defined on its own, without the lower-casing function. |
| RoutePaths.LowerFixes | src/express.ts:27-32 | A string without upper-case ASCII letters is its own lower case, and lower-casing is idempotent. |
| RoutePaths.MatchExact | src/express.ts:27-32 | A successful exact match has one path segment per pattern segment. |
| RoutePaths.MatchExactAccepts | src/express.ts:27-32 | An exact match succeeds if and only if the segments pair off one for one with the pattern, each literal matching its segment up to ASCII case and each parameter taking a non-empty segment. |
| RoutePaths.MatchExactCaptures | src/express.ts:27-32 | A successful exact match captures exactly the pattern's parameter names, each bound to the segment at the name's last position in the pattern. |
| RoutePaths.Match | src/express.ts:27-32 | A match either is exact or becomes exact once one trailing empty segment (a trailing '/') is dropped. |
| RoutePaths.RouteMatch | src/express.ts:27-32 | A route matches a request when its pattern matches the segments of the URL's path part. |
| ExpressApp.App.constructor | src/express.ts:11 | A new application has an empty stack. |
| ExpressApp.App.Use | src/express.ts:14 | `app.use` appends one middleware layer to the end of the stack. |
| ExpressApp.App.Get | src/express.ts:27-32 | `app.get` appends one GET route with its compiled path to the end of the stack. |
| ExpressApp.AddRoutes | src/express.ts:27-32 | The two `app.get` calls append GET /health and then GET /sum/:i/:j, with their compiled patterns. |
| ExpressApp.CreateApp | src/express.ts:10-52 | A fresh application holding, in order: the JSON parser, GET /health, GET /sum/:i/:j, the 404 fallback and the error handler. |
| ExpressApp.HealthPathCompiles | src/express.ts:27 | '/health' compiles to one literal segment. |
| ExpressApp.SumPathJoins | src/express.ts:32 | '/sum/:i/:j' is the pieces '', 'sum', ':i', ':j' joined by '/'. |
| ExpressApp.SumPathCompiles | src/express.ts:32 | '/sum/:i/:j' compiles to the literal 'sum' and the parameters i and j. |
| ExpressApp.CompileSumParts | src/express.ts:32 | A path that splits into '', 'sum', ':i', ':j' compiles to the sum pattern. |
| ExpressApp.HealthRouteMatch | src/express.ts:27 | The health route matches exactly the segment 'health' in any ASCII case, optionally followed by one trailing '/', and captures nothing. |
| ExpressApp.HealthExactMatch | src/express.ts:27 | Without the trailing-slash allowance, only a single segment that lower-cases to 'health' matches. |
| ExpressApp.SumRouteMatch | src/express.ts:32 | The sum route matches exactly 'sum' (any ASCII case) followed by two non-empty segments, with one trailing '/' allowed, and captures them as i and j. |
| ExpressApp.SumExactMatch | src/express.ts:32 | Without the trailing-slash allowance, exactly three segments match: one that lower-cases to 'sum', then non-empty i and j. |
| ExpressApp.HealthBody | src/express.ts:28 | The health body `{status:'healthy', timestamp}`. |
| ExpressApp.NotFoundMessage | src/express.ts:37 | 'Route <method> <url> not found', with the URL as received. |
| ExpressApp.NotFoundBody | src/express.ts:35-38 | The 404 body `{error:'Not Found', message}`. |
| ExpressApp.Handles | src/express.ts:27-32 | A GET route takes GET and HEAD requests. |
| ExpressApp.Invoke | src/express.ts:27-32 | Running a route's handler: the health handler answers 200 with the health body, and the sum route calls getSum with the captured parameters. |
| ExpressApp.Run | src/express.ts:10-52 | The first-match walk over the layer stack: the parser passes a request on, a route takes the first request whose method and path it matches, a throwing handler skips ahead to the error handler, and the fallback answers 404. |
| ExpressApp.Serve | src/express.ts:10-52 | Serving a request is walking the stack from its first layer with no handler failed. |
| ExpressApp.RouteTable | src/express.ts:27-48 | The reference table: a health request gets the health reply, a sum request gets getSum's reply or the 500 if it throws, and any other request gets the 404. |
| ExpressApp.FallbackLayers | src/express.ts:34-48 | The last two layers answer 404 naming the request, or 500 once a handler has thrown. |
| ExpressApp.SumLayer | src/express.ts:32-48 | From the sum route on, a sum request gets its table entry and anything else gets the 404. |
| ExpressApp.SumLayerTaken | src/express.ts:32 | A sum request is taken by the sum route and ends as the table says. |
| ExpressApp.SumLayerPassed | src/express.ts:32-39 | Any other request passes the sum route and gets the 404. |
| ExpressApp.HealthLayer | src/express.ts:27-29 | A health request is answered by the health route. Any other request passes on. |
| ExpressApp.ServeFollowsRouteTable | src/express.ts:10-52 | Serving by first match over the stack equals the route table: health, sum (500 if getSum throws), and 404 otherwise. |
| ExpressApp.GetSumReachedIff | src/express.ts:32 | getSum runs if and only if the request is a sum request, and then exactly once with the raw segments. A sum request is a GET or HEAD whose path before any '?' is /sum/\<i\>/\<j\>, with 'sum' in any ASCII case, i and j non-empty, and at most one trailing '/'. |
| ExpressApp.EveryRequestAnswered | src/express.ts:34-48 | Every request gets a reply from the application's own layers. |
| ExpressApp.UnroutedIsNotFound | src/express.ts:34-39 | A request no route takes gets 404 `{error:'Not Found', message:'Route <method> <url> not found'}`, and no handler runs. |
| ExpressApp.ThrowingGetSumGives500 | src/express.ts:42-48 | A throwing getSum produces 500 with `InternalErrorBody`, the error handler's body `{error:'Internal Server Error', message:'An unexpected error occurred'}` of src/express.ts:45-48. |
| ExpressApp.SumUrlPath | src/express.ts:32 | '/sum/a/b', with a and b non-empty and slash-free, has the segments 'sum', a and b. |
| ExpressApp.SumUrl | src/express.ts:32 | GET or HEAD of '/sum/a/b', with a and b non-empty and free of '/' and '?', is a sum request with parameters {i: a, j: b}, with or without a query string. |
| ExpressApp.HealthServed | src/express.ts:27-29 | Every health request is answered 200 `{status:'healthy', timestamp}` by the health handler alone. |
| ExpressApp.HealthUrl | src/express.ts:27-29 | GET or HEAD of '/x', where x lower-cases to 'health', gets the health reply, with or without a query string. |
| ExpressApp.HealthRequest | src/express.test.ts:24-34 | GET /health answers 200 `{status:'healthy', timestamp}` through the health handler. |
| ExpressApp.HeadHealthRequest | src/express.ts:27-29 | HEAD /health is answered by the GET health route. |
| ExpressApp.LowerHealth | src/express.ts:27 | 'HEALTH' and 'health' both lower-case to 'health'. |
| ExpressApp.LowerSum | src/express.ts:32 | 'sum' lower-cases to itself. |
| ExpressApp.UpperCaseHealthRequest | src/express.ts:27-29 | GET /HEALTH is answered by the health route, since literal segments match without regard to case. |
| ExpressApp.HealthQueryRequest | src/express.ts:27-29 | GET /health?x=1 is answered by the health route, since the query string takes no part in routing. |
| ExpressApp.SumRequestReachesGetSum | src/express.test.ts:38-54 | GET /sum/1/2 calls getSum once with {i:'1', j:'2'} and sends its reply. |
| ExpressApp.SumQueryRequest | src/express.ts:32 | GET /sum/1/2?x=3 calls getSum once with {i:'1', j:'2'}: the query string is not part of j. |
| ExpressApp.RootNotFound | src/express.test.ts:57-62 | '/' gets the 404 without calling getSum. |
| ExpressApp.BareSumNotFound | src/express.test.ts:64-69 | '/sum' gets the 404 without calling getSum. |
| ExpressApp.SumSlashNotFound | src/express.test.ts:71-76 | '/sum/' gets the 404 without calling getSum. |
| ExpressApp.UnroutedMethod | src/express.ts:27-39 | A request whose method is neither GET nor HEAD gets the 404 naming it, whatever its URL. |
| ExpressApp.PostSumNotFound | src/express.test.ts:163-172 | POST /sum/1/2 gets 404 with 'Route POST /sum/1/2 not found'. |
| ExpressApp.DeleteHealthNotFound | src/express.test.ts:174-183 | DELETE /health gets 404 with 'Route DELETE /health not found'. |
| ExpressApp.OneSegmentPath | src/express.ts:34-39 | '/x', for x free of '/' and '?', is the single segment x. |
| ExpressApp.UnroutedOneSegment | src/express.ts:34-39 | A one-segment path that does not lower-case to 'health' gets the 404, whatever the method. |
| ExpressApp.UnknownRouteNotFound | src/express.test.ts:152-161 | GET /unknown-route gets 404 with 'Route GET /unknown-route not found'. |
| ExpressApp.UnknownRouteMessage | src/express.ts:37 | The 404 message for GET /unknown-route, spelled out. |
| ExpressApp.RegisteredRoutes | src/express.test.ts:222-250 | The registered routes are exactly GET /health then GET /sum/:i/:j, and neither '' nor '/' is a route. |
| ExpressApp.SumEndToEnd | src/express.ts:32 | GET /sum/a/b, with getSum bound to `ControllerHandler` (the controller run on a fresh response, as the route at src/express.ts:32 binds it), returns the controller's reply for {i: a, j: b}. |
| ToDo.WithoutKey | frontend/src/from-spring/Apps/ToDoApp/ToDoApp.tsx:28 | The filter never lengthens the list. Every surviving item comes from the list and does not carry the key. |
| ToDo.WithoutKeyMembership | frontend/src/from-spring/Apps/ToDoApp/ToDoApp.tsx:28 | An item survives if and only if it was in the list and does not carry the deleted key. |
| ToDo.WithoutKeyAppend | frontend/src/from-spring/Apps/ToDoApp/ToDoApp.tsx:28 | Filtering distributes over concatenation, so survivors keep their order. |
| ToDo.WithoutKeyUnchangedIff | frontend/src/from-spring/Apps/ToDoApp/ToDoApp.tsx:28 | Deleting leaves the list unchanged if and only if no item carries the key. |
| ToDo.WithoutUniqueKey | frontend/src/from-spring/Apps/ToDoApp/ToDoApp.tsx:28 | With distinct keys, deleting item i's key removes exactly item i. |
| ToDo.WithoutKeyIdempotent | frontend/src/from-spring/Apps/ToDoApp/ToDoApp.tsx:28 | Deleting a key twice is the same as deleting it once. |
| ToDo.WithoutKeyCommutes | frontend/src/from-spring/Apps/ToDoApp/ToDoApp.tsx:28 | Deletions of two keys commute. |
| ToDo.HeadKeyUnique | frontend/src/from-spring/Apps/ToDoApp/ToDoApp.tsx:23-24 | With distinct keys, no later item carries the first item's key. |
| ToDo.WithoutKeyKeepsKeys | frontend/src/from-spring/Apps/ToDoApp/ToDoApp.tsx:27-30 | Deleting keeps the keys distinct and below the same bound. |
| ToDo.AppendKeepsKeys | frontend/src/from-spring/Apps/ToDoApp/ToDoApp.tsx:23-24 | Appending under the first unused key keeps the keys distinct and below the next bound. |
| ToDo.AddThenDelete | frontend/src/from-spring/Apps/ToDoApp/ToDoApp.tsx:23-28 | Deleting the key just issued undoes the add. |
| ToDo.ToDoApp.constructor | frontend/src/from-spring/Apps/ToDoApp/ToDoApp.tsx:18-19 | The state starts as an empty list with key 0. It satisfies the invariant. |
| ToDo.ToDoApp.HandleAdd | frontend/src/from-spring/Apps/ToDoApp/ToDoApp.tsx:21-25 | A blank title changes nothing. Otherwise exactly one item {title, priority, key: itemKey} is appended and itemKey goes up by 1. The new key had never been issued, and the invariant is kept. |
| ToDo.ToDoApp.HandleDelete | frontend/src/from-spring/Apps/ToDoApp/ToDoApp.tsx:27-30 | The list becomes the filter of the old list. itemKey and the issued keys are unchanged, so the key is never reissued. The invariant is kept. |
| ToDo.Scenario | frontend/src/from-spring/Apps/ToDoApp/ToDoApp.tsx:21-30 | Adding 'a', then a blank title, then 'b', then deleting key 0 leaves only 'b' under key 1, and the next key is 2. |

## Left out

- Number and Number.isFinite: JavaScript's string-to-number coercion is the parameter `number` of type `string -> Parsed`, used by `AdderController.Convert`. The numeric-literal grammar is not modelled. `Parsed.Finite` carries only a safe integer, so a string whose number is finite but not a safe integer, such as '2.5' or '1e20', can only be classified `NonFinite`, which gives 400 where the source answers 200, or as some other integer, which gives a wrong sum.
- AdderService.Sum: operands are restricted to safe integers. Decimal operands (2.5 + 3.7, 2.5 + 1.5), other doubles, and real-valued rounding are not modelled.
- The health timestamp (`new Date().toISOString()`) depends on the clock. It is the opaque parameter `Env.timestamp`.
- `express.json()` and request bodies: the parser layer passes every request on unchanged. Malformed JSON bodies are not modelled. Express's parser passes the parse error on with `next(err)`, so the routes and the 404 fallback are skipped and the error handler answers 500. For example, POST /test-json with a JSON content type and the body `{` gets 500 from Express, where the model answers 404.
- RoutePaths.PathOf: the model routes a URL as an origin-form path that starts with '/', and cuts off only a query string after the first '?', never a '#' fragment. Express takes the pathname from a full URL parse when the URL does not start with '/' or contains '#', so two answers differ. GET http://h/health gets 200 from the health route in Express, but 404 'Route GET http://h/health not found' in the model. GET /sum/1/2#x passes {i:'1', j:'2'} to getSum in Express, but {i:'1', j:'2#x'} in the model. The lemmas over every request (ServeFollowsRouteTable, GetSumReachedIff, UnroutedIsNotFound and those built on them) describe the model's routing. They match Express for URLs that start with '/' and contain no '#'.
- Percent-decoding of path parameters is not modelled. Parameters are the raw segments, so GET /sum/%31/2 passes '%31' to getSum where Express passes '1'. A malformed escape such as GET /sum/%E0/2 makes Express's decoding throw. Express then skips the remaining routes and the 404 fallback, and the error handler answers 500 `{error:'Internal Server Error', ...}` without calling getSum. The model instead calls getSum with '%E0', and getSum answers 400.
- Case-insensitive matching covers ASCII letters only. For the two routes here ('health' and 'sum') this gives Express's answer: JavaScript's case-insensitive regular expressions never map a non-ASCII character onto an ASCII letter.
- A HEAD request answered by a GET route carries the route's body in the model. Node does not transmit that body.
- Handlers that neither answer nor throw: the model has no hanging requests. `next()` calls from handlers are not modelled.
- The error handler's `console.error` logging is I/O and is not modelled.
- Response method chaining (`status(...)` returning the response) and `res.json` versus `res.send` serialisation details are not modelled. Bodies are JSON values with ordered members.
- src/server.ts (port parsing, `listen`, signal handling) is process plumbing and is not part of this model.
- src/express.nullRoute.test.ts depends on the deployment environment and is not part of this model.
- The frontend UI files (App.tsx, the counting buttons, ToDoItemEntryForm.tsx, main.tsx), which handle rendering, effects and fetch calls, are not part of this model. The key type module of the TODO list is not part of this model either; the item shape follows ToDoApp.tsx:23.
- React state updates are batched and use the values captured at render time. The model applies each handler call to the current state, one call after another.
- JavaScript numbers used as TODO keys are unbounded integers here. Key overflow past 2^53 is not modelled.
- Configuration files (vite.config.ts, eslint.config.mjs) are not part of this model.
