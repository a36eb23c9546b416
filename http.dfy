/**
  Values shared by the server's modules: an optional value, the JSON bodies the
  handlers send, a finished reply, and the mutable response object that a
  handler writes its status and body into.
 */
module Http {

  datatype Option<T> = None | Some(value: T)

  /** The JSON values the handlers send. Numbers are the integers of the model;
      an object keeps its members in insertion order, as JSON serialisation does. */
  datatype Json =
    | JNumber(n: int)
    | JString(s: string)
    | JObject(members: seq<(string, Json)>)

  /** The status code and body a client sees. */
  datatype Reply = Reply(status: int, body: Json)

  /**
    The response object a handler receives. `Status` sets the status code and
    `Send` writes a body; a fresh response carries Express's default status 200.
    `sendCount` counts the bodies written, so that a contract can say a handler
    answered exactly once. Method chaining (each call returning the response)
    is not represented.
   */
  class Response {
    var status: int
    var body: Option<Json>
    var sendCount: nat

    constructor ()
      ensures status == 200 && body == None && sendCount == 0
    {
      status := 200;
      body := None;
      sendCount := 0;
    }

    method Status(code: int)
      modifies this
      ensures status == code
      ensures body == old(body) && sendCount == old(sendCount)
    {
      status := code;
    }

    method Send(b: Json)
      modifies this
      ensures body == Some(b) && sendCount == old(sendCount) + 1
      ensures status == old(status)
    {
      body := Some(b);
      sendCount := sendCount + 1;
    }
  }
}
