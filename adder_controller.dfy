/**
  The handler of `GET /sum/:i/:j` (src/adderController.ts). It converts the two
  path parameters to numbers, answers 400 with one uniform error body when
  either is not finite, and otherwise asks the addition service for the sum:
  the service's result is echoed with the parsed operands, and anything the
  service throws becomes a 500 carrying the error's message.

  JavaScript's `Number(...)` coercion followed by `Number.isFinite` is the
  parameter `number`, which classifies a string as a finite number or not. The
  service is the parameter `service`, so that the defensive 500 branch stays
  reachable; `AdderServiceCall` is the real one, which never throws.
 */
module AdderController {
  import opened Http
  import opened AdderService

  /** A converted parameter: a finite number, or NaN / +-Infinity. */
  datatype Parsed = Finite(value: SafeInt) | NonFinite

  /** A value the service may throw: an `Error` (with its message) or anything else. */
  datatype Thrown = ErrorObject(message: string) | NonErrorValue

  /** How a call of the service ends. */
  datatype Completion = Returned(value: int) | Threw(thrown: Thrown)

  /** The three ways a request can end. */
  datatype SumOutcome =
    | InvalidParameters
    | Computed(firstNumber: SafeInt, secondNumber: SafeInt, sum: int)
    | ServiceFailed(message: string)

  const InvalidMessage: string := "Invalid number parameters"
  const UnknownErrorMessage: string := "Unknown error occurred"

  /** The real service: AdderService.sum returns and never throws. */
  function AdderServiceCall(firstNumber: SafeInt, secondNumber: SafeInt): Completion {
    Returned(Sum(firstNumber, secondNumber))
  }

  /** `Number(request.params[name])`, classified: a missing parameter is
      `Number(undefined)`, which is NaN. */
  function Convert(params: map<string, string>, name: string, number: string -> Parsed): Parsed
  {
    if name in params then number(params[name]) else NonFinite
  }

  /** The message of a thrown value, as the catch block computes it. */
  function MessageOf(e: Thrown): string {
    match e
    case ErrorObject(m) => m
    case NonErrorValue => UnknownErrorMessage
  }

  /** The outcome of one request, given its path parameters. The service is
      consulted only once both parameters are finite. */
  function Outcome(params: map<string, string>, number: string -> Parsed,
                   service: (SafeInt, SafeInt) -> Completion): SumOutcome
  {
    var first := Convert(params, "i", number);
    var second := Convert(params, "j", number);
    if first.NonFinite? || second.NonFinite? then InvalidParameters
    else
      match service(first.value, second.value)
      case Returned(v) => Computed(first.value, second.value, v)
      case Threw(e) => ServiceFailed(MessageOf(e))
  }

  /** The body sent for each outcome. */
  function BodyOf(o: SumOutcome): Json {
    match o
    case InvalidParameters => JObject([("error", JString(InvalidMessage))])
    case Computed(a, b, s) =>
      JObject([("firstNumber", JNumber(a)), ("secondNumber", JNumber(b)), ("sum", JNumber(s))])
    case ServiceFailed(m) => JObject([("error", JString(m))])
  }

  /** The status the handler leaves on a fresh response: the success path sets
      none, so Express's default 200 stands. */
  function StatusOf(o: SumOutcome): int {
    match o
    case InvalidParameters => 400
    case Computed(_, _, _) => 200
    case ServiceFailed(_) => 500
  }

  function ReplyOf(o: SumOutcome): Reply {
    Reply(StatusOf(o), BodyOf(o))
  }

  /**
    getSum: answers through `response` with exactly one body. On invalid input it
    sets 400 and returns early; on success it leaves the status alone; when the
    service throws it sets 500.
   */
  method GetSum(params: map<string, string>, number: string -> Parsed,
                service: (SafeInt, SafeInt) -> Completion, response: Response)
    modifies response
    ensures response.body == Some(BodyOf(Outcome(params, number, service)))
    ensures response.sendCount == old(response.sendCount) + 1
    ensures response.status ==
            match Outcome(params, number, service)
            case Computed(_, _, _) => old(response.status)
            case _ => StatusOf(Outcome(params, number, service))
  {
    var firstNumber := Convert(params, "i", number);
    var secondNumber := Convert(params, "j", number);
    if firstNumber.NonFinite? || secondNumber.NonFinite? {
      response.Status(400);
      response.Send(BodyOf(InvalidParameters));
      return;
    }
    var result := service(firstNumber.value, secondNumber.value);
    match result
    case Returned(sum) =>
      response.Send(BodyOf(Computed(firstNumber.value, secondNumber.value, sum)));
    case Threw(error) =>
      response.Status(500);
      response.Send(BodyOf(ServiceFailed(MessageOf(error))));
  }

  /** A fresh response ends up holding exactly ReplyOf(Outcome(...)). */
  method HandleFresh(params: map<string, string>, number: string -> Parsed,
                     service: (SafeInt, SafeInt) -> Completion) returns (reply: Reply)
    ensures reply == ReplyOf(Outcome(params, number, service))
  {
    var response := new Response();
    GetSum(params, number, service, response);
    reply := Reply(response.status, response.body.value);
  }

  // ---------------------------------------------------------------------------
  // Properties of the outcome

  /** The request is rejected exactly when one of the two parameters is not a
      finite number, and then the reply is 400 with the uniform error body. */
  lemma InvalidIff(params: map<string, string>, number: string -> Parsed,
                   service: (SafeInt, SafeInt) -> Completion)
    ensures Outcome(params, number, service).InvalidParameters? <==>
            Convert(params, "i", number).NonFinite? || Convert(params, "j", number).NonFinite?
    ensures Outcome(params, number, service).InvalidParameters? ==>
            ReplyOf(Outcome(params, number, service)) ==
            Reply(400, JObject([("error", JString("Invalid number parameters"))]))
  {
  }

  /** The 400 reply does not say which parameter was bad: a bad first parameter
      and a bad second parameter give the same reply, whatever the other one is
      and whatever the service would have done. */
  lemma InvalidReplyIsUniform(p1: map<string, string>, n1: string -> Parsed, s1: (SafeInt, SafeInt) -> Completion,
                              p2: map<string, string>, n2: string -> Parsed, s2: (SafeInt, SafeInt) -> Completion)
    requires Convert(p1, "i", n1).NonFinite?
    requires Convert(p2, "j", n2).NonFinite?
    ensures ReplyOf(Outcome(p1, n1, s1)) == ReplyOf(Outcome(p2, n2, s2))
  {
  }

  /** With no parameters at all, both convert to NaN and the request is rejected. */
  lemma MissingParametersRejected(number: string -> Parsed, service: (SafeInt, SafeInt) -> Completion)
    ensures ReplyOf(Outcome(map[], number, service)) ==
            Reply(400, JObject([("error", JString("Invalid number parameters"))]))
  {
  }

  /** On invalid input the service is not consulted: any two services give the
      same outcome. */
  lemma InvalidIgnoresService(params: map<string, string>, number: string -> Parsed,
                              s1: (SafeInt, SafeInt) -> Completion, s2: (SafeInt, SafeInt) -> Completion)
    requires Convert(params, "i", number).NonFinite? || Convert(params, "j", number).NonFinite?
    ensures Outcome(params, number, s1) == Outcome(params, number, s2)
  {
  }

  /** With two finite parameters the reply echoes the parsed operands and the
      service's result with status 200, or, when the service throws, is 500 with
      the thrown error's message or the fallback text. */
  lemma ValidOutcome(params: map<string, string>, number: string -> Parsed,
                     service: (SafeInt, SafeInt) -> Completion, a: SafeInt, b: SafeInt)
    requires Convert(params, "i", number) == Finite(a)
    requires Convert(params, "j", number) == Finite(b)
    ensures service(a, b).Returned? ==>
            ReplyOf(Outcome(params, number, service)) ==
            Reply(200, JObject([("firstNumber", JNumber(a)), ("secondNumber", JNumber(b)),
                                ("sum", JNumber(service(a, b).value))]))
    ensures service(a, b) == Threw(NonErrorValue) ==>
            ReplyOf(Outcome(params, number, service)) ==
            Reply(500, JObject([("error", JString("Unknown error occurred"))]))
    ensures forall m :: service(a, b) == Threw(ErrorObject(m)) ==>
            ReplyOf(Outcome(params, number, service)) == Reply(500, JObject([("error", JString(m))]))
  {
  }

  /** Exactly one of the three outcomes, and the status alone tells which. */
  lemma StatusIdentifiesOutcome(o: SumOutcome)
    ensures StatusOf(o) == 400 <==> o.InvalidParameters?
    ensures StatusOf(o) == 200 <==> o.Computed?
    ensures StatusOf(o) == 500 <==> o.ServiceFailed?
  {
  }

  /** A client can read the outcome back from the reply: distinct outcomes give
      distinct replies. */
  lemma ReplyIsFaithful(o1: SumOutcome, o2: SumOutcome)
    requires ReplyOf(o1) == ReplyOf(o2)
    ensures o1 == o2
  {
    if o1.Computed? && o2.Computed? {
      assert BodyOf(o1).members[0].1 == JNumber(o1.firstNumber);
      assert BodyOf(o1).members[1].1 == JNumber(o1.secondNumber);
      assert BodyOf(o1).members[2].1 == JNumber(o1.sum);
    } else if o1.ServiceFailed? && o2.ServiceFailed? {
      assert BodyOf(o1).members[0].1 == JString(o1.message);
    }
  }

  /** With the real service the defensive 500 branch is unreachable, and a sum
      in the safe range is reported exactly. */
  lemma RealServiceNeverFails(params: map<string, string>, number: string -> Parsed)
    ensures !Outcome(params, number, AdderServiceCall).ServiceFailed?
    ensures Outcome(params, number, AdderServiceCall).Computed? ==>
            var o := Outcome(params, number, AdderServiceCall);
            IsSafe(o.firstNumber + o.secondNumber) ==> o.sum == o.firstNumber + o.secondNumber
  {
    var o := Outcome(params, number, AdderServiceCall);
    if o.Computed? {
      if IsSafe(o.firstNumber + o.secondNumber) {
        SumExactInSafeRange(o.firstNumber, o.secondNumber);
      }
    }
  }

  /** The controller's integer test cases: '5','3' gives 8 and '-2','3' gives 1,
      'abc' or 'xyz' as either parameter gives the 400 reply. */
  lemma ControllerExamples(number: string -> Parsed)
    requires number("5") == Finite(5) && number("3") == Finite(3) && number("-2") == Finite(-2)
    requires number("abc") == NonFinite && number("xyz") == NonFinite
    ensures ReplyOf(Outcome(map["i" := "5", "j" := "3"], number, AdderServiceCall)) ==
            Reply(200, JObject([("firstNumber", JNumber(5)), ("secondNumber", JNumber(3)), ("sum", JNumber(8))]))
    ensures ReplyOf(Outcome(map["i" := "-2", "j" := "3"], number, AdderServiceCall)) ==
            Reply(200, JObject([("firstNumber", JNumber(-2)), ("secondNumber", JNumber(3)), ("sum", JNumber(1))]))
    ensures ReplyOf(Outcome(map["i" := "abc", "j" := "3"], number, AdderServiceCall)) ==
            Reply(400, JObject([("error", JString("Invalid number parameters"))]))
    ensures ReplyOf(Outcome(map["i" := "5", "j" := "xyz"], number, AdderServiceCall)) ==
            Reply(400, JObject([("error", JString("Invalid number parameters"))]))
  {
    SumExactInSafeRange(5, 3);
    SumExactInSafeRange(-2, 3);
  }
}
