/**
 * The model backend, seen from the engine: one awaited request at a time,
 * each answered by the next reply of a script. A reply is either a
 * non-empty list of generated texts (the `choices` of the response) or a
 * failure carrying the proxy's or the transport's message.
 */
module Backend {
  import opened Outcomes
  import opened JsValues

  datatype Role = System | User | Assistant

  datatype Message = Message(role: Role, content: string)

  /** What is sent: the conversation, the number of completions and the temperature. */
  datatype Request = Request(messages: seq<Message>, n: Num, temperature: real)

  type Choices = s: seq<string> | |s| > 0 witness [""]

  datatype Reply = Texts(choices: Choices) | Failure(message: string)

  /** The replies still to come, and every request sent so far, in order. */
  datatype Oracle = Oracle(replies: seq<Reply>, sent: seq<Request>)

  /** The temperature `callLLM` uses when none is passed (`options.temperature ?? 0.7`). */
  const DefaultTemperature: real := 0.7

  /**
   * `callLLM(messages, { n, temperature })`: `n || 1` completions at the given
   * temperature (0.7 when none is passed); the request is recorded, one reply
   * is consumed, and a failure (or an exhausted script) becomes a thrown error.
   */
  function Call(o: Oracle, messages: seq<Message>, n: Num, temperature: Option<real>): (res: (Result<Choices>, Oracle))
    ensures res.1.sent == o.sent + [Request(messages, Or(n, Int(1)), if temperature.Some? then temperature.value else DefaultTemperature)]
    ensures res.1.replies == if o.replies == [] then [] else o.replies[1..]
    ensures res.0.Ok? <==> o.replies != [] && o.replies[0].Texts?
    ensures res.0.Ok? ==> res.0.value == o.replies[0].choices
    ensures o.replies == [] ==> res.0 == Err(CallFailed("no reply"))
    ensures o.replies != [] && o.replies[0].Failure? ==> res.0 == Err(CallFailed(o.replies[0].message))
  {
    var request := Request(messages, Or(n, Int(1)), match temperature case Some(t) => t case None => DefaultTemperature);
    var o' := Oracle(if o.replies == [] then [] else o.replies[1..], o.sent + [request]);
    if o.replies == [] then (Err(CallFailed("no reply")), o')
    else match o.replies[0]
      case Texts(choices) => (Ok(choices), o')
      case Failure(message) => (Err(CallFailed(message)), o')
  }
}
