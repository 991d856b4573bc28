/**
 * Properties of the agent loop: how the conversation grows, what every
 * model request carries, when the loop ends and with what, that only the
 * first tool call of a completion matters, that a handler's failure is
 * recorded rather than thrown, and that the workspace stays well formed.
 */
module AgentFacts {
  import opened Common
  import opened Js
  import Fs = Workspace
  import Tools
  import ToolsFacts
  import opened AgentLoop

  // ---------------------------------------------------------------------
  // One iteration of the loop

  lemma LoopStep(i: nat, hist: seq<Message>, d: Dispatch, store: Fs.Store, rounds: seq<Round>)
    requires i < MaxIterations <= |rounds|
    ensures var st := StepOn(rounds[i], d, store);
            st.Finish? ==> Loop(i, hist, d, store, rounds) == Trace(st.outcome, hist + st.appended, store, [hist], [], [])
    ensures var st := StepOn(rounds[i], d, store);
            st.Continue? ==>
              Loop(i, hist, d, store, rounds)
              == Follow(hist, st, Loop(i + 1, Next(hist, st.message), d, st.store, rounds))
  {
  }

  /** The shape every step has, whatever the completion: what `StepOn` guarantees, without the round. */
  predicate WellStep(st: Step) {
    match st
    case Finish(o, appended) =>
      (o.Threw? && appended == [])
      || (o.Answered? && |appended| == 1 && appended[0].Assistant? && appended[0].reply.content == o.content)
    case Continue(m, _, _) => m.Some? ==> m.value.Function?
  }

  lemma StepWell(round: Round, d: Dispatch, store: Fs.Store)
    ensures WellStep(StepOn(round, d, store))
  {
  }

  // ---------------------------------------------------------------------
  // Growth of the conversation

  /** `r` added one message per call to `hist`, and the answer when there is one. */
  predicate Grown(hist: seq<Message>, r: Trace) {
    |r.history| == |hist| + |r.calls| + (if r.outcome.Answered? then 1 else 0)
    && (r.outcome.Answered? ==>
          r.history[|r.history| - 1].Assistant?
          && r.history[|r.history| - 1].reply.content == r.outcome.content)
  }

  lemma GrownFollow(hist: seq<Message>, st: Step, rest: Trace)
    requires st.Continue? && WellStep(st)
    requires Grown(Next(hist, st.message), rest)
    ensures Grown(hist, Follow(hist, st, rest))
  {
  }

  lemma GrownFinish(hist: seq<Message>, st: Step, store: Fs.Store)
    requires st.Finish? && WellStep(st)
    ensures Grown(hist, Trace(st.outcome, hist + st.appended, store, [hist], [], []))
  {
  }

  /**
   * A turn adds exactly one `function` message per dispatched tool, plus the
   * model's own message when it answers, and that message carries the
   * answer returned.
   */
  lemma {:induction false} LoopGrowth(i: nat, hist: seq<Message>, d: Dispatch, store: Fs.Store, rounds: seq<Round>)
    requires i <= MaxIterations <= |rounds|
    ensures Grown(hist, Loop(i, hist, d, store, rounds))
    decreases MaxIterations - i
  {
    if i < MaxIterations {
      LoopStep(i, hist, d, store, rounds);
      var st := StepOn(rounds[i], d, store);
      StepWell(rounds[i], d, store);
      if st.Continue? {
        LoopGrowth(i + 1, Next(hist, st.message), d, st.store, rounds);
        GrownFollow(hist, st, Loop(i + 1, Next(hist, st.message), d, st.store, rounds));
      } else {
        GrownFinish(hist, st, store);
      }
    }
  }

  /** Every request carries `prefix`. */
  predicate AllExtend(prefix: seq<Message>, requests: seq<seq<Message>>) {
    forall k :: 0 <= k < |requests| ==> Extends(prefix, requests[k])
  }

  /** Every request is a prefix of `history`. */
  predicate AllWithin(requests: seq<seq<Message>>, history: seq<Message>) {
    forall k :: 0 <= k < |requests| ==> Extends(requests[k], history)
  }

  /** The requests of `r` all carry `hist`, and the first is `hist` itself. */
  predicate Carries(hist: seq<Message>, r: Trace) {
    AllExtend(hist, r.requests) && (|r.requests| > 0 ==> r.requests[0] == hist)
  }

  lemma CarriesFollow(hist: seq<Message>, st: Step, rest: Trace)
    requires st.Continue?
    requires Carries(Next(hist, st.message), rest)
    ensures Carries(hist, Follow(hist, st, rest))
  {
    var next := Next(hist, st.message);
    var reqs := [hist] + rest.requests;
    assert Extends(hist, next);
    forall k | 0 <= k < |reqs|
      ensures Extends(hist, reqs[k])
    {
      if k > 0 {
        assert reqs[k] == rest.requests[k - 1];
        ExtendsTrans(hist, next, reqs[k]);
      }
    }
  }

  lemma CarriesFinish(hist: seq<Message>, r: Trace)
    requires r.requests == [hist]
    ensures Carries(hist, r)
  {
    assert Extends(hist, hist);
  }

  lemma LoopEnd(hist: seq<Message>, d: Dispatch, store: Fs.Store, rounds: seq<Round>)
    requires MaxIterations <= |rounds|
    ensures Loop(MaxIterations, hist, d, store, rounds) == Trace(Exhausted, hist, store, [], [], [])
  {
  }

  /**
   * Every request sends the conversation as it stood before the turn plus
   * what the turn has added so far; the first is sent as the turn began.
   */
  lemma {:induction false} RequestsCarryHistory(i: nat, hist: seq<Message>, d: Dispatch, store: Fs.Store, rounds: seq<Round>)
    requires i <= MaxIterations <= |rounds|
    ensures Carries(hist, Loop(i, hist, d, store, rounds))
    decreases MaxIterations - i
  {
    if i < MaxIterations {
      LoopStep(i, hist, d, store, rounds);
      var st := StepOn(rounds[i], d, store);
      if st.Continue? {
        var next := Next(hist, st.message);
        RequestsCarryHistory(i + 1, next, d, st.store, rounds);
        CarriesFollow(hist, st, Loop(i + 1, next, d, st.store, rounds));
      } else {
        CarriesFinish(hist, Trace(st.outcome, hist + st.appended, store, [hist], [], []));
      }
    }
  }

  /** Every request of `r` is a prefix of the conversation `r` leaves. */
  predicate Within(r: Trace) {
    AllWithin(r.requests, r.history)
  }

  lemma WithinFollow(hist: seq<Message>, st: Step, rest: Trace)
    requires st.Continue?
    requires Extends(Next(hist, st.message), rest.history)
    requires Within(rest)
    ensures Within(Follow(hist, st, rest))
  {
    var next := Next(hist, st.message);
    var reqs := [hist] + rest.requests;
    assert Extends(hist, next);
    ExtendsTrans(hist, next, rest.history);
    forall k | 0 <= k < |reqs|
      ensures Extends(reqs[k], rest.history)
    {
      if k > 0 {
        assert reqs[k] == rest.requests[k - 1];
      }
    }
  }

  /** No request sends anything the conversation does not end up holding. */
  lemma {:induction false} RequestsWithinHistory(i: nat, hist: seq<Message>, d: Dispatch, store: Fs.Store, rounds: seq<Round>)
    requires i <= MaxIterations <= |rounds|
    ensures Within(Loop(i, hist, d, store, rounds))
    decreases MaxIterations - i
  {
    if i < MaxIterations {
      LoopStep(i, hist, d, store, rounds);
      var st := StepOn(rounds[i], d, store);
      if st.Continue? {
        var next := Next(hist, st.message);
        RequestsWithinHistory(i + 1, next, d, st.store, rounds);
        WithinFollow(hist, st, Loop(i + 1, next, d, st.store, rounds));
      } else {
        assert Extends(hist, hist + st.appended);
      }
    }
  }

  /** `r` dispatched no more tools than it made requests. */
  predicate CallsWithinRequests(r: Trace) {
    |r.calls| <= |r.requests|
  }

  lemma CallsFollow(hist: seq<Message>, st: Step, rest: Trace)
    requires st.Continue? && CallsWithinRequests(rest)
    ensures CallsWithinRequests(Follow(hist, st, rest))
  {
  }

  /** At most one tool runs per model request. */
  lemma {:induction false} OneCallPerRequest(i: nat, hist: seq<Message>, d: Dispatch, store: Fs.Store, rounds: seq<Round>)
    requires i <= MaxIterations <= |rounds|
    ensures CallsWithinRequests(Loop(i, hist, d, store, rounds))
    decreases MaxIterations - i
  {
    if i < MaxIterations {
      LoopStep(i, hist, d, store, rounds);
      var st := StepOn(rounds[i], d, store);
      if st.Continue? {
        var next := Next(hist, st.message);
        OneCallPerRequest(i + 1, next, d, st.store, rounds);
        CallsFollow(hist, st, Loop(i + 1, next, d, st.store, rounds));
      }
    }
  }

  // ---------------------------------------------------------------------
  // How a turn ends

  /** The completion ends the turn, by throwing or by answering. */
  predicate Ends(resp: Response) {
    Throws(resp) || Stops(resp)
  }

  /** None of the completions of iterations `i` to 19 ends the turn. */
  predicate NoneEnds(rounds: seq<Round>, i: nat)
    requires MaxIterations <= |rounds|
  {
    forall j :: i <= j < MaxIterations ==> !Ends(rounds[j].response)
  }

  lemma NoneEndsStep(rounds: seq<Round>, i: nat)
    requires i < MaxIterations <= |rounds|
    ensures NoneEnds(rounds, i) <==> !Ends(rounds[i].response) && NoneEnds(rounds, i + 1)
  {
  }

  /**
   * The error a throwing completion makes `agent` reject with: the gateway's
   * error, the TypeError of the missing first call, the `JSON.parse`
   * SyntaxError, or the TypeError of `Object.values(null)`.
   */
  function ThrowText(resp: Response): string
    requires Throws(resp)
  {
    match resp
    case GatewayFailure(e) => e
    case Completion(_, msg) =>
      var calls := msg.toolCalls.value;
      if |calls| == 0 then NoFirstCall
      else
        match calls[0].arguments
        case Malformed(e) => e
        case Parsed(_) => NullToObject
  }

  lemma StepEnds(round: Round, d: Dispatch, store: Fs.Store)
    ensures StepOn(round, d, store).Finish? <==> Ends(round.response)
    ensures StepOn(round, d, store).Finish? ==>
              (StepOn(round, d, store).outcome.Threw? <==> Throws(round.response))
              && (StepOn(round, d, store).outcome.Answered? <==> !Throws(round.response))
    ensures Throws(round.response) ==> StepOn(round, d, store).outcome == Threw(ThrowText(round.response))
  {
  }

  /** `r` returned the apology exactly when `none` holds, and then it made `n` requests. */
  predicate ExhaustsWhen(none: bool, n: nat, r: Trace) {
    (r.outcome.Exhausted? <==> none) && (r.outcome.Exhausted? ==> |r.requests| == n)
  }

  lemma ExhaustsFollow(none: bool, n: nat, hist: seq<Message>, st: Step, rest: Trace)
    requires st.Continue? && ExhaustsWhen(none, n, rest)
    ensures ExhaustsWhen(none, n + 1, Follow(hist, st, rest))
  {
  }

  /**
   * The turn returns the fixed apology exactly when none of the remaining
   * iterations' completions ends it, and then it has made a request in
   * every one of them.
   */
  lemma {:induction false} ExhaustedIffNoneEnds(i: nat, hist: seq<Message>, d: Dispatch, store: Fs.Store, rounds: seq<Round>)
    requires i <= MaxIterations <= |rounds|
    ensures ExhaustsWhen(NoneEnds(rounds, i), MaxIterations - i, Loop(i, hist, d, store, rounds))
    decreases MaxIterations - i
  {
    if i < MaxIterations {
      LoopStep(i, hist, d, store, rounds);
      NoneEndsStep(rounds, i);
      StepEnds(rounds[i], d, store);
      var st := StepOn(rounds[i], d, store);
      if st.Continue? {
        var next := Next(hist, st.message);
        ExhaustedIffNoneEnds(i + 1, next, d, st.store, rounds);
        ExhaustsFollow(NoneEnds(rounds, i + 1), MaxIterations - (i + 1), hist, st,
                       Loop(i + 1, next, d, st.store, rounds));
      }
    }
  }

  /**
   * `r` made `n` requests and settled as the ending completion `resp` says:
   * rejecting with its error, or answering with its content after appending
   * its message.
   */
  predicate DecidedBy(resp: Response, n: nat, r: Trace) {
    |r.requests| == n
    && (Throws(resp) ==> r.outcome == Threw(ThrowText(resp)))
    && (!Throws(resp) ==>
          r.outcome == Answered(resp.message.content)
          && |r.history| > 0 && r.history[|r.history| - 1] == Assistant(resp.message))
  }

  lemma DecidedFollow(resp: Response, n: nat, hist: seq<Message>, st: Step, rest: Trace)
    requires st.Continue? && DecidedBy(resp, n, rest)
    ensures DecidedBy(resp, n + 1, Follow(hist, st, rest))
  {
  }

  /**
   * The first completion that ends the turn decides it: the loop has made
   * one request per iteration up to and including it, and it throws or
   * answers as that completion says.
   */
  lemma {:induction false} FirstEndingRoundDecides(i: nat, j: nat, hist: seq<Message>, d: Dispatch, store: Fs.Store,
                                                   rounds: seq<Round>)
    requires i <= j < MaxIterations <= |rounds|
    requires Ends(rounds[j].response)
    requires forall k :: i <= k < j ==> !Ends(rounds[k].response)
    ensures DecidedBy(rounds[j].response, j - i + 1, Loop(i, hist, d, store, rounds))
    decreases j - i
  {
    LoopStep(i, hist, d, store, rounds);
    StepEnds(rounds[i], d, store);
    var st := StepOn(rounds[i], d, store);
    if i < j {
      assert !Ends(rounds[i].response);
      var next := Next(hist, st.message);
      FirstEndingRoundDecides(i + 1, j, next, d, st.store, rounds);
      DecidedFollow(rounds[j].response, j - (i + 1) + 1, hist, st, Loop(i + 1, next, d, st.store, rounds));
    }
  }

  /**
   * A completion that neither ends the turn nor dispatches (an unexpected
   * finish reason, or `tool_calls` without a list) costs an iteration and
   * adds nothing to the conversation.
   */
  lemma IgnoredCompletionSkips(i: nat, hist: seq<Message>, d: Dispatch, store: Fs.Store, rounds: seq<Round>)
    requires i < MaxIterations <= |rounds|
    requires !Ends(rounds[i].response) && !Dispatches(rounds[i].response)
    ensures var r := Loop(i, hist, d, store, rounds);
            var rest := Loop(i + 1, hist, d, store, rounds);
            r.outcome == rest.outcome && r.history == rest.history && r.store == rest.store
            && r.requests == [hist] + rest.requests && r.calls == rest.calls && r.effects == rest.effects
  {
    var st := StepOn(rounds[i], d, store);
    assert st == Continue(None, store, []);
  }

  // ---------------------------------------------------------------------
  // Dispatch

  /**
   * A dispatched call is recorded under its name: with the handler's value
   * when it resolves, with `Error executing <name>: <message>` when it
   * rejects. Either way the loop goes on.
   */
  lemma DispatchRecorded(round: Round, d: Dispatch, store: Fs.Store)
    requires Dispatches(round.response)
    ensures var call := round.response.message.toolCalls.value[0];
            var args := ObjectValues(call.arguments.value);
            args.Ok?
            && var inv := d(call.name, args.value, store, round.external);
               StepOn(round, d, store)
               == Continue(Some(Function(call.name, match inv.outcome
                                                    case Ok(c) => c
                                                    case Err(e) => Tools.Str(ErrorText(call.name, e)))),
                           inv.store, inv.effects)
  {
  }

  /** A name the handler table does not have is recorded as an error; nothing runs. */
  lemma UnknownToolRecorded(round: Round, root: Fs.Path, store: Fs.Store)
    requires Fs.Normalized(root)
    requires Dispatches(round.response)
    requires Tools.Lookup(round.response.message.toolCalls.value[0].name).Unbound?
    ensures var name := round.response.message.toolCalls.value[0].name;
            StepOn(round, Handlers(root), store)
            == Continue(Some(Function(name, Tools.Str(ErrorText(name, Tools.UndefinedApply)))), store, [])
  {
    var name := round.response.message.toolCalls.value[0].name;
    var args := ObjectValues(round.response.message.toolCalls.value[0].arguments.value);
    DispatchRecorded(round, Handlers(root), store);
    var inv := Tools.Invoke(name, args.value, root, store, round.external);
    assert Handlers(root)(name, args.value, store, round.external) == inv;
    assert inv == Tools.Invocation(Err(Tools.UndefinedApply), store, []);

  }

  /** Drops every tool call but the first from a `tool_calls` completion. */
  function OnlyFirst(round: Round): (r: Round)
    ensures r.external == round.external
    ensures Throws(r.response) <==> Throws(round.response)
    ensures Stops(r.response) <==> Stops(round.response)
    ensures Dispatches(r.response) <==> Dispatches(round.response)
  {
    match round.response
    case Completion(reason, Reply(content, Some(calls))) =>
      if reason == ToolCalls && |calls| > 0 then
        Round(Completion(reason, Reply(content, Some([calls[0]]))), round.external)
      else round
    case _ => round
  }

  lemma OnlyFirstStep(round: Round, d: Dispatch, store: Fs.Store)
    ensures StepOn(OnlyFirst(round), d, store) == StepOn(round, d, store)
  {
  }

  /** Only the first tool call of a completion is ever run: the rest can be dropped without effect. */
  lemma {:induction false} OnlyFirstCallMatters(i: nat, hist: seq<Message>, d: Dispatch, store: Fs.Store,
                                                rounds: seq<Round>, firsts: seq<Round>)
    requires i <= MaxIterations <= |rounds| == |firsts|
    requires forall k :: 0 <= k < |rounds| ==> firsts[k] == OnlyFirst(rounds[k])
    ensures Loop(i, hist, d, store, firsts) == Loop(i, hist, d, store, rounds)
    decreases MaxIterations - i
  {
    if i < MaxIterations {
      LoopStep(i, hist, d, store, rounds);
      LoopStep(i, hist, d, store, firsts);
      OnlyFirstStep(rounds[i], d, store);
      var st := StepOn(rounds[i], d, store);
      if st.Continue? {
        OnlyFirstCallMatters(i + 1, Next(hist, st.message), d, st.store, rounds, firsts);
      }
    } else {
      LoopEnd(hist, d, store, rounds);
      LoopEnd(hist, d, store, firsts);
    }
  }

  // ---------------------------------------------------------------------
  // The workspace

  /** The child process, if it ran, left a workspace satisfying `inv`. */
  predicate Sane(inv: Fs.Store -> bool, e: Tools.External) {
    e.exec.Exited? ==> inv(e.exec.after)
  }

  predicate SaneWorld(inv: Fs.Store -> bool, rounds: seq<Round>) {
    forall k :: 0 <= k < |rounds| ==> Sane(inv, rounds[k].external)
  }

  /** The handlers keep `inv` whenever the world outside them does. */
  ghost predicate Keeps(d: Dispatch, inv: Fs.Store -> bool) {
    forall name: string, args: seq<Json>, s: Fs.Store, e: Tools.External ::
      inv(s) && Sane(inv, e) ==> inv(d(name, args, s, e).store)
  }

  lemma StepKeeps(round: Round, d: Dispatch, store: Fs.Store, inv: Fs.Store -> bool)
    requires inv(store) && Sane(inv, round.external) && Keeps(d, inv)
    ensures StepOn(round, d, store).Continue? ==> inv(StepOn(round, d, store).store)
  {
    if Dispatches(round.response) {
      DispatchRecorded(round, d, store);
      var call := round.response.message.toolCalls.value[0];
      var args := ObjectValues(call.arguments.value).value;
      assert inv(d(call.name, args, store, round.external).store);
    }
  }

  /** Any workspace invariant the handlers and the outside world keep, a turn keeps. */
  lemma {:induction false} LoopKeeps(i: nat, hist: seq<Message>, d: Dispatch, store: Fs.Store, rounds: seq<Round>,
                                     inv: Fs.Store -> bool)
    requires i <= MaxIterations <= |rounds|
    requires inv(store) && SaneWorld(inv, rounds) && Keeps(d, inv)
    ensures inv(Loop(i, hist, d, store, rounds).store)
    decreases MaxIterations - i
  {
    if i < MaxIterations {
      LoopStep(i, hist, d, store, rounds);
      var st := StepOn(rounds[i], d, store);
      if st.Continue? {
        StepKeeps(rounds[i], d, store, inv);
        LoopKeeps(i + 1, Next(hist, st.message), d, st.store, rounds, inv);
      }
    }
  }

  /** The handlers keep the file system well formed. */
  lemma HandlersKeepWellFormed(root: Fs.Path)
    requires Fs.Normalized(root)
    ensures Keeps(Handlers(root), Fs.WellFormed)
  {
    forall name: string, args: seq<Json>, s: Fs.Store, e: Tools.External
      | Fs.WellFormed(s) && Sane(Fs.WellFormed, e)
      ensures Fs.WellFormed(Handlers(root)(name, args, s, e).store)
    {
      var d := Handlers(root);
      assert d(name, args, s, e) == Tools.Invoke(name, args, root, s, e);
      ToolsFacts.InvokeKeepsWellFormed(name, args, root, s, e);
    }
  }

  /** A whole turn of `agent` keeps the workspace well formed. */
  lemma AgentKeepsWellFormed(hist: seq<Message>, input: string, root: Fs.Path, store: Fs.Store, rounds: seq<Round>)
    requires Fs.Normalized(root) && MaxIterations <= |rounds|
    requires Fs.WellFormed(store) && SaneWorld(Fs.WellFormed, rounds)
    ensures Fs.WellFormed(Agent(hist, input, root, store, rounds).store)
  {
    HandlersKeepWellFormed(root);
    LoopKeeps(0, hist + [User(input)], Handlers(root), store, rounds, Fs.WellFormed);
  }

  // ---------------------------------------------------------------------
  // Across turns

  lemma ExtendsAt(a: seq<Message>, b: seq<Message>, k: nat)
    requires Extends(a, b) && k < |a|
    ensures k < |b| && b[k] == a[k]
  {
    assert b[..|a|][k] == b[k];
  }

  /**
   * The conversation outlives a call of `agent`: the next call's first
   * request carries everything the previous one left, the system prompt
   * included, followed by the new user message. Each input gets a fresh
   * workspace, so the second turn may run at another root on another store.
   */
  lemma TurnsAccumulate(input1: string, input2: string, root1: Fs.Path, root2: Fs.Path,
                        store1: Fs.Store, store2: Fs.Store, rounds1: seq<Round>, rounds2: seq<Round>)
    requires Fs.Normalized(root1) && Fs.Normalized(root2)
    requires MaxIterations <= |rounds1| && MaxIterations <= |rounds2|
    ensures var t1 := Agent(InitialHistory, input1, root1, store1, rounds1);
            var t2 := Agent(t1.history, input2, root2, store2, rounds2);
            t2.requests[0] == t1.history + [User(input2)]
            && t2.history[0] == System(SystemPrompt)
            && t2.history[1] == User(input1)
  {
    var t1 := Agent(InitialHistory, input1, root1, store1, rounds1);
    var h1 := InitialHistory + [User(input1)];
    ExtendsAt(h1, t1.history, 0);
    ExtendsAt(h1, t1.history, 1);
    var t2 := Agent(t1.history, input2, root2, store2, rounds2);
    var h2 := t1.history + [User(input2)];
    ExtendsAt(h2, t2.history, 0);
    ExtendsAt(h2, t2.history, 1);
  }
}
