/**
 * The agent loop: one call of `agent(userInput)` appends the user's message
 * to the conversation, then for at most 20 iterations asks the model for a
 * completion. A `tool_calls` completion runs the first requested tool and
 * appends its result as a `function` message; a `stop` completion appends
 * the model's message and returns its text; any other completion is
 * ignored. After 20 iterations a fixed apology is returned.
 *
 * The model and the world outside the handlers are an oracle: a sequence of
 * rounds, one per iteration, each holding the completion the model answers
 * and the `External` the handlers see during that iteration.
 */
module AgentLoop {
  import opened Common
  import opened Js
  import Fs = Workspace
  import Tools

  const MaxIterations: nat := 20

  const SystemPrompt := "You are a helpful assistant. Only use the functions you have been provided with."

  const ExhaustedText :=
    "The maximum number of iterations has been met without a suitable answer. Please try again with a more specific input."

  /** The TypeError of reading `function` from the missing first tool call of an empty list. */
  const NoFirstCall := "Cannot read properties of undefined (reading 'function')"

  // ---------------------------------------------------------------------
  // Model traffic

  /** `JSON.parse` of a tool call's argument text: a value, or the SyntaxError it throws. */
  datatype Arguments = Parsed(value: Json) | Malformed(error: string)

  datatype ToolCall = ToolCall(name: string, arguments: Arguments)

  /** The `message` of a choice: its text and its tool calls, either possibly absent. */
  datatype Reply = Reply(content: Option<string>, toolCalls: Option<seq<ToolCall>>)

  /** The `finish_reason` values the chat completions API reports. */
  datatype FinishReason = Stop | Length | ToolCalls | ContentFilter | FunctionCall

  /** What `openai.chat.completions.create` settles with. */
  datatype Response =
    | Completion(finishReason: FinishReason, message: Reply)
    | GatewayFailure(error: string)

  /**
   * `functionToCall.apply(null, args)` for the tool named first: what the
   * handler settles with, the workspace after it and its outside requests.
   */
  type Dispatch = (string, seq<Json>, Fs.Store, Tools.External) -> Tools.Invocation

  /** The handlers of `availableTools`, acting in the workspace at `root`. */
  function Handlers(root: Fs.Path): (d: Dispatch)
    requires Fs.Normalized(root)
    ensures forall name, args, s, e :: d(name, args, s, e) == Tools.Invoke(name, args, root, s, e)
  {
    (name, args, s, e) => Tools.Invoke(name, args, root, s, e)
  }

  /** One iteration's worth of oracle: the model's answer and the world the handlers see. */
  datatype Round = Round(response: Response, external: Tools.External)

  /** An entry of the module-level `messages` array. */
  datatype Message =
    | System(text: string)
    | User(text: string)
    | Assistant(reply: Reply)
    | Function(name: string, content: Tools.Content)

  /** How a call of `agent` settles. */
  datatype Outcome =
    | Answered(content: Option<string>)   // resolves with the model's text
    | Exhausted                           // resolves with `ExhaustedText`
    | Threw(error: string)                // rejects

  /** The value `agent` resolves with; `None` when it rejects. */
  function Resolved(o: Outcome): Option<Option<string>> {
    match o
    case Answered(c) => Some(c)
    case Exhausted => Some(Some(ExhaustedText))
    case Threw(_) => None
  }

  /**
   * A call of `agent`, observed: its outcome, the conversation after it, the
   * workspace after it, the conversation as sent with each model request,
   * the names of the tools dispatched, and the handlers' outside requests.
   */
  datatype Trace = Trace(
    outcome: Outcome,
    history: seq<Message>,
    store: Fs.Store,
    requests: seq<seq<Message>>,
    calls: seq<string>,
    effects: seq<Tools.Effect>)

  predicate Extends<T(==)>(prefix: seq<T>, s: seq<T>) {
    |prefix| <= |s| && s[..|prefix|] == prefix
  }

  /** From position `from` on, `history` holds one `function` message per name of `calls`, in order. */
  predicate Records(from: nat, history: seq<Message>, calls: seq<string>) {
    from + |calls| <= |history|
    && forall j :: from <= j < from + |calls| ==>
         history[j].Function? && history[j].name == calls[j - from]
  }

  // ---------------------------------------------------------------------
  // Which completions end the loop

  /** The completion makes the loop throw before any tool runs. */
  predicate Throws(resp: Response) {
    match resp
    case GatewayFailure(_) => true
    case Completion(reason, msg) =>
      reason == ToolCalls && msg.toolCalls.Some?
      && (|msg.toolCalls.value| == 0
          || msg.toolCalls.value[0].arguments.Malformed?
          || msg.toolCalls.value[0].arguments.value.JNull?)
  }

  /** The completion dispatches a tool. */
  predicate Dispatches(resp: Response) {
    resp.Completion? && resp.finishReason == ToolCalls && resp.message.toolCalls.Some?
    && !Throws(resp)
  }

  /** The completion ends the turn with an answer. */
  predicate Stops(resp: Response) {
    resp.Completion? && resp.finishReason == Stop
  }

  // ---------------------------------------------------------------------
  // One iteration

  /** What one iteration does: end the turn, or go on with an optional new message. */
  datatype Step =
    | Finish(outcome: Outcome, appended: seq<Message>)
    | Continue(message: Option<Message>, store: Fs.Store, effects: seq<Tools.Effect>)

  /** The text a handler's rejection is recorded as. */
  function ErrorText(name: string, error: string): string {
    "Error executing " + name + ": " + error
  }

  /**
   * One iteration on a completion already received: only the first tool
   * call runs, its arguments bound by position; a handler's rejection is
   * caught and recorded as text, while a parse failure or `null` arguments
   * escape the loop.
   */
  function StepOn(round: Round, dispatch: Dispatch, store: Fs.Store): (r: Step)
    ensures r.Finish? <==> Throws(round.response) || Stops(round.response)
    ensures r.Finish? ==> (r.outcome.Threw? <==> Throws(round.response))
    ensures r.Finish? && r.outcome.Threw? ==> r.appended == []
    ensures r.Finish? && !r.outcome.Threw? ==>
              r.outcome == Answered(round.response.message.content)
              && r.appended == [Assistant(round.response.message)]
    ensures r.Continue? ==> (r.message.Some? <==> Dispatches(round.response))
    ensures r.Continue? && r.message.Some? ==>
              r.message.value.Function?
              && r.message.value.name == round.response.message.toolCalls.value[0].name
    ensures r.Continue? && r.message.None? ==> r.store == store && r.effects == []
  {
    match round.response
    case GatewayFailure(e) => Finish(Threw(e), [])
    case Completion(reason, msg) =>
      if reason == ToolCalls && msg.toolCalls.Some? then
        var calls := msg.toolCalls.value;
        if |calls| == 0 then Finish(Threw(NoFirstCall), [])
        else
          var name := calls[0].name;
          match calls[0].arguments
          case Malformed(e) => Finish(Threw(e), [])
          case Parsed(v) =>
            match ObjectValues(v)
            case Err(e) => Finish(Threw(e), [])
            case Ok(args) =>
              var inv := dispatch(name, args, store, round.external);
              var content := match inv.outcome
                             case Ok(c) => c
                             case Err(e) => Tools.Str(ErrorText(name, e));
              Continue(Some(Function(name, content)), inv.store, inv.effects)
      else if reason == Stop then Finish(Answered(msg.content), [Assistant(msg)])
      else Continue(None, store, [])
  }

  // ---------------------------------------------------------------------
  // The loop

  /** The conversation after a step that goes on. */
  function Next(hist: seq<Message>, m: Option<Message>): seq<Message> {
    match m
    case Some(msg) => hist + [msg]
    case None => hist
  }

  /** The names a step that goes on has dispatched. */
  function Called(m: Option<Message>): seq<string> {
    match m
    case Some(msg) => if msg.Function? then [msg.name] else []
    case None => []
  }

  /** A step that goes on, followed by the rest of the loop. */
  function Follow(hist: seq<Message>, st: Step, rest: Trace): Trace
    requires st.Continue?
  {
    Trace(rest.outcome, rest.history, rest.store, [hist] + rest.requests,
          Called(st.message) + rest.calls, st.effects + rest.effects)
  }

  /** A `function` message at `from`, followed by the records of `calls`, records one name more. */
  lemma RecordsCons(from: nat, history: seq<Message>, name: string, calls: seq<string>)
    requires from < |history| && history[from].Function? && history[from].name == name
    requires Records(from + 1, history, calls)
    ensures Records(from, history, [name] + calls)
  {
    var all := [name] + calls;
    forall j | from <= j < from + |all|
      ensures history[j].Function? && history[j].name == all[j - from]
    {
      if j > from {
        assert all[j - from] == calls[j - (from + 1)];
      }
    }
  }

  lemma ExtendsTrans(a: seq<Message>, b: seq<Message>, c: seq<Message>)
    requires Extends(a, b) && Extends(b, c)
    ensures Extends(a, c)
  {
    assert c[..|a|] == c[..|b|][..|a|];
  }

  /** What the loop promises of its result carries over from the rest of the loop to a step before it. */
  lemma FollowKeeps(hist: seq<Message>, st: Step, rest: Trace, n: nat)
    requires st.Continue? && (st.message.Some? ==> st.message.value.Function?)
    requires Extends(Next(hist, st.message), rest.history)
    requires Records(|Next(hist, st.message)|, rest.history, rest.calls)
    requires |rest.requests| <= n
    ensures Extends(hist, Follow(hist, st, rest).history)
    ensures Records(|hist|, Follow(hist, st, rest).history, Follow(hist, st, rest).calls)
    ensures |Follow(hist, st, rest).requests| <= n + 1
  {
    var next := Next(hist, st.message);
    assert Extends(hist, next);
    ExtendsTrans(hist, next, rest.history);
    if st.message.Some? {
      assert rest.history[|hist|] == next[|hist|];
      RecordsCons(|hist|, rest.history, st.message.value.name, rest.calls);
    }
  }

  /**
   * Iterations `i` to 19 of the loop, on the conversation `hist`. The
   * history only grows, by one `function` message per dispatched tool and by
   * the model's message when it stops; each request sends the whole
   * conversation so far.
   */
  function Loop(i: nat, hist: seq<Message>, dispatch: Dispatch, store: Fs.Store, rounds: seq<Round>): (r: Trace)
    requires i <= MaxIterations <= |rounds|
    ensures Extends(hist, r.history)
    ensures Records(|hist|, r.history, r.calls)
    ensures |r.requests| <= MaxIterations - i
    decreases MaxIterations - i
  {
    if i == MaxIterations then Trace(Exhausted, hist, store, [], [], [])
    else
      var st := StepOn(rounds[i], dispatch, store);
      if st.Finish? then
        Trace(st.outcome, hist + st.appended, store, [hist], [], [])
      else
        var rest := Loop(i + 1, Next(hist, st.message), dispatch, st.store, rounds);
        FollowKeeps(hist, st, rest, MaxIterations - (i + 1));
        Follow(hist, st, rest)
  }

  /** The conversation before the first call of `agent`. */
  const InitialHistory: seq<Message> := [System(SystemPrompt)]

  /** `agent(userInput)` on the conversation `hist` kept from earlier calls. */
  function Agent(hist: seq<Message>, input: string, root: Fs.Path, store: Fs.Store, rounds: seq<Round>): (r: Trace)
    requires Fs.Normalized(root)
    requires MaxIterations <= |rounds|
    ensures Extends(hist + [User(input)], r.history)
    ensures 1 <= |r.requests| <= MaxIterations
    ensures r.requests[0] == hist + [User(input)]
  {
    Loop(0, hist + [User(input)], Handlers(root), store, rounds)
  }
}
