/**
 * The lifecycle of the search assistant's two process-wide handles, the MCP
 * client of the Perplexity tool server and the strands agent built on it,
 * stated as a state machine over values.
 *
 * Every call into a foreign library (constructing the MCP client, entering
 * and exiting it, building the Bedrock model, listing the server's tools,
 * constructing the agent, asking the agent) is an opaque step: its result,
 * or the message of the exception it raised, is a parameter. Each transition
 * also reports the external calls it made, in order, so that "which calls,
 * in which order, how often" can be stated.
 *
 * The class in module Assistant updates these fields in place and is proved
 * to follow the functions here.
 */
module Lifecycle {

  datatype Option<T> = None | Some(value: T)

  /** What one call into a foreign library did: returned a value, or raised an
      exception whose `str(e)` is `message`. */
  datatype Step<T> = Done(value: T) | Raised(message: string)

  /** The MCP client object (one per construction). */
  datatype ServerHandle = ServerHandle(id: nat)

  /** The Bedrock model object. */
  datatype ModelHandle = ModelHandle(id: nat)

  /** One tool descriptor returned by the server's tool listing. */
  datatype Tool = Tool(name: string)

  /** The agent, recorded by what it was constructed from. */
  datatype AgentHandle = AgentHandle(model: ModelHandle, systemPrompt: string, tools: seq<Tool>, sessionId: string)

  /** What initialisation reads: the API key from the environment (None when
      unset), the model and session identifiers, and the fixed system prompt. */
  datatype Config = Config(apiKey: Option<string>, modelId: string, sessionId: string, systemPrompt: string)

  /** The behaviour of the external calls one initialisation attempt makes:
      the five calls of its `try` block, and `__exit__` if the rollback closes
      a server. */
  datatype InitSteps = InitSteps(
    client: Step<ServerHandle>,
    enter: Step<()>,
    model: Step<ModelHandle>,
    tools: Step<seq<Tool>>,
    build: Step<()>,
    rollbackExit: Step<()>)

  /** An external call; transitions list them in the order the source makes them. */
  datatype Call =
    | ConstructClient
    | Enter(server: ServerHandle)
    | BuildModel(modelId: string)
    | ListTools(server: ServerHandle)
    | BuildAgent
    | Exit(server: ServerHandle)
    | InvokeAgent(query: string)

  /** ValueError for the missing key; the wrapping Exception of a failed
      initialisation; an exception of a foreign call passed on unchanged. */
  datatype Error = ValueError(message: string) | InitError(message: string) | Propagated(message: string)

  datatype Status = Ok | Err(error: Error)

  datatype Reply = Answered(response: string) | Failed(error: Error)

  /** The module globals `agent` and `perplexity_mcp_server`, and how many
      times `__enter__` and `__exit__` have been called so far. */
  datatype State = State(agent: Option<AgentHandle>, server: Option<ServerHandle>, enters: nat, exits: nat)

  /** The state after an operation, what it returned, and the external calls it made. */
  datatype Transition<R> = Transition(next: State, result: R, calls: seq<Call>)

  const MissingKeyMessage: string := "PERPLEXITY_API_KEY environment variable is required"
  const InitFailurePrefix: string := "Failed to initialize search assistant: "

  /** Both globals are None at import time. */
  const Initial: State := State(None, None, 0, 0)

  /** `not perplexity_api_key` is false: the key is set and not empty. */
  predicate HasKey(cfg: Config) {
    cfg.apiKey.Some? && cfg.apiKey.value != ""
  }

  /** A server is held only while an agent exists. */
  predicate Consistent(s: State) {
    s.agent.None? ==> s.server.None?
  }

  /** Every `__enter__` is matched by an `__exit__`, except for the server still held. */
  predicate Balanced(s: State) {
    s.enters == s.exits + (if s.server.Some? then 1 else 0)
  }

  predicate Healthy(s: State) {
    Consistent(s) && Balanced(s)
  }

  /** The five calls of the `try` block, in the order the source makes them. */
  function InitCalls(h: ServerHandle, modelId: string): seq<Call> {
    [ConstructClient, Enter(h), BuildModel(modelId), ListTools(h), BuildAgent]
  }

  /** The message of the first call of the `try` block that raises; None when all five return. */
  function FirstRaised(st: InitSteps): Option<string> {
    if st.client.Raised? then Some(st.client.message)
    else if st.enter.Raised? then Some(st.enter.message)
    else if st.model.Raised? then Some(st.model.message)
    else if st.tools.Raised? then Some(st.tools.message)
    else if st.build.Raised? then Some(st.build.message)
    else None
  }

  /** How many calls of the `try` block are made: up to and including the first that raises. */
  function CallsMade(st: InitSteps): nat {
    if st.client.Raised? then 1
    else if st.enter.Raised? then 2
    else if st.model.Raised? then 3
    else if st.tools.Raised? then 4
    else 5
  }

  /** The server the rollback finds: the new client if its construction
      returned (the assignment happened), otherwise whatever was held before. */
  function RollbackTarget(s: State, st: InitSteps): Option<ServerHandle> {
    if st.client.Done? then Some(st.client.value) else s.server
  }

  /** `_close_mcp_server`: exit the held server and forget it once `__exit__` returns;
      a server whose `__exit__` raised stays held. Nothing to do without one. */
  function CloseStep(s: State, exit: Step<()>): (t: Transition<Status>)
    ensures t.next.agent == s.agent && t.next.enters == s.enters
    ensures s.server.None? ==> t == Transition(s, Ok, [])
    ensures s.server.Some? ==> t.calls == [Exit(s.server.value)] && t.next.exits == s.exits + 1
    ensures s.server.Some? && exit.Done? ==> t.next.server.None? && t.result == Ok
    ensures s.server.Some? && exit.Raised? ==>
              t.next.server == s.server && t.result == Err(Propagated(exit.message))
  {
    match s.server
    case None => Transition(s, Ok, [])
    case Some(h) =>
      var exited := s.(exits := s.exits + 1);
      match exit
      case Done(_) => Transition(exited.(server := None), Ok, [Exit(h)])
      case Raised(m) => Transition(exited, Err(Propagated(m)), [Exit(h)])
  }

  /** The `except` block: close whatever server is held, then raise the wrapped
      error, unless the close itself raised, in which case that error escapes. */
  function Rollback(s: State, made: seq<Call>, message: string, exit: Step<()>): (t: Transition<Status>)
    ensures t.result.Err? && t.next.agent == s.agent && t.next.enters == s.enters
    ensures |made| <= |t.calls| && t.calls[..|made|] == made
    ensures s.server.None? ==> t == Transition(s, Err(InitError(InitFailurePrefix + message)), made)
    ensures s.server.Some? ==> t.calls == made + [Exit(s.server.value)] && t.next.exits == s.exits + 1
    ensures s.server.Some? && exit.Done? ==>
              t.next.server.None? && t.result == Err(InitError(InitFailurePrefix + message))
    ensures s.server.Some? && exit.Raised? ==>
              t.next.server == s.server && t.result == Err(Propagated(exit.message))
  {
    var closed := CloseStep(s, exit);
    var error := if closed.result.Err? then closed.result.error else InitError(InitFailurePrefix + message);
    Transition(closed.next, Err(error), made + closed.calls)
  }

  /** `_ensure_search_agent_initialized`. */
  function EnsureStep(s: State, cfg: Config, st: InitSteps): (t: Transition<Status>)
    // an existing agent: return at once, no key read, no external call
    ensures s.agent.Some? ==> t == Transition(s, Ok, [])
    // no key: ValueError before any client is constructed
    ensures s.agent.None? && !HasKey(cfg) ==> t == Transition(s, Err(ValueError(MissingKeyMessage)), [])
    // success exactly when there is nothing to do, or the key is set and no call raises
    ensures t.result == Ok <==> s.agent.Some? || (HasKey(cfg) && FirstRaised(st).None?)
    // success: the new server, entered once; the agent holds exactly the listed tools;
    // the five calls were made in order, the agent built last
    ensures s.agent.None? && t.result == Ok ==>
              FirstRaised(st).None? &&
              t.next == State(Some(AgentHandle(st.model.value, cfg.systemPrompt, st.tools.value, cfg.sessionId)),
                              Some(st.client.value), s.enters + 1, s.exits) &&
              t.calls == InitCalls(st.client.value, cfg.modelId)
    // a failure in the try block: no agent; the calls made so far in order, then the rollback
    ensures s.agent.None? && HasKey(cfg) && FirstRaised(st).Some? ==>
              t.next.agent.None? &&
              t.next.enters == s.enters + (if st.client.Done? then 1 else 0) &&
              t.next.exits == s.exits + (if RollbackTarget(s, st).Some? then 1 else 0) &&
              |t.calls| >= CallsMade(st) && t.calls[0] == ConstructClient &&
              (st.client.Done? ==> t.calls[..CallsMade(st)] == InitCalls(st.client.value, cfg.modelId)[..CallsMade(st)]) &&
              t.calls[CallsMade(st)..] == (if RollbackTarget(s, st).Some? then [Exit(RollbackTarget(s, st).value)] else [])
    // ... and the rollback either closes the server and raises the wrapped error,
    // or its own `__exit__` raises and that error escapes with the server still held
    ensures s.agent.None? && HasKey(cfg) && FirstRaised(st).Some? ==>
              (RollbackTarget(s, st).None? || st.rollbackExit.Done? ==>
                 t.next.server.None? && t.result == Err(InitError(InitFailurePrefix + FirstRaised(st).value))) &&
              (RollbackTarget(s, st).Some? && st.rollbackExit.Raised? ==>
                 t.next.server == RollbackTarget(s, st) && t.result == Err(Propagated(st.rollbackExit.message)))
  {
    if s.agent.Some? then Transition(s, Ok, [])
    else if !HasKey(cfg) then Transition(s, Err(ValueError(MissingKeyMessage)), [])
    else
      match st.client
      case Raised(m) => Rollback(s, [ConstructClient], m, st.rollbackExit)
      case Done(h) =>
        var held := s.(server := Some(h), enters := s.enters + 1);
        var calls := InitCalls(h, cfg.modelId);
        match st.enter
        case Raised(m) => Rollback(held, calls[..2], m, st.rollbackExit)
        case Done(_) =>
          match st.model
          case Raised(m) => Rollback(held, calls[..3], m, st.rollbackExit)
          case Done(model) =>
            match st.tools
            case Raised(m) => Rollback(held, calls[..4], m, st.rollbackExit)
            case Done(tools) =>
              match st.build
              case Raised(m) => Rollback(held, calls, m, st.rollbackExit)
              case Done(_) =>
                Transition(held.(agent := Some(AgentHandle(model, cfg.systemPrompt, tools, cfg.sessionId))), Ok, calls)
  }

  /** `search_assistant(query)`: ensure initialisation, then ask the agent. */
  function AskStep(s: State, cfg: Config, st: InitSteps, query: string, answer: Step<string>): (t: Transition<Reply>)
    // an initialisation error propagates unchanged and the agent is not called
    ensures EnsureStep(s, cfg, st).result.Err? ==>
              t == Transition(EnsureStep(s, cfg, st).next, Failed(EnsureStep(s, cfg, st).result.error), EnsureStep(s, cfg, st).calls)
    // otherwise the agent is called once, after initialisation, and its answer or error is returned
    ensures EnsureStep(s, cfg, st).result.Ok? ==>
              t.next == EnsureStep(s, cfg, st).next && t.next.agent.Some? &&
              t.calls == EnsureStep(s, cfg, st).calls + [InvokeAgent(query)] &&
              t.result == (if answer.Done? then Answered(answer.value) else Failed(Propagated(answer.message)))
    // with an agent in place, a query changes no handle and no counter, whatever it returns
    ensures s.agent.Some? ==> t.next == s && t.calls == [InvokeAgent(query)]
  {
    var ensured := EnsureStep(s, cfg, st);
    if ensured.result.Err? then Transition(ensured.next, Failed(ensured.result.error), ensured.calls)
    else
      var reply := match answer
        case Done(r) => Answered(r)
        case Raised(m) => Failed(Propagated(m));
      Transition(ensured.next, reply, ensured.calls + [InvokeAgent(query)])
  }

  /** The operations a caller can invoke, with the behaviour of their external calls. */
  datatype Op =
    | Ensure(cfg: Config, st: InitSteps)
    | Close(exit: Step<()>)
    | Ask(query: string, cfg: Config, st: InitSteps, answer: Step<string>)

  function Apply(s: State, op: Op): State {
    match op
    case Ensure(cfg, st) => EnsureStep(s, cfg, st).next
    case Close(exit) => CloseStep(s, exit).next
    case Ask(q, cfg, st, answer) => AskStep(s, cfg, st, q, answer).next
  }

  function Run(s: State, ops: seq<Op>): State
    decreases |ops|
  {
    if ops == [] then s else Run(Apply(s, ops[0]), ops[1..])
  }

  /** Every `__exit__` the operation may call returns normally. */
  predicate ExitSucceeds(op: Op) {
    match op
    case Ensure(_, st) => st.rollbackExit.Done?
    case Close(exit) => exit.Done?
    case Ask(_, _, st, _) => st.rollbackExit.Done?
  }

  predicate AllExitsSucceed(ops: seq<Op>) {
    forall i :: 0 <= i < |ops| ==> ExitSucceeds(ops[i])
  }

  lemma ApplyKeepsHealthy(s: State, op: Op)
    requires Healthy(s) && ExitSucceeds(op)
    ensures Healthy(Apply(s, op))
  {
    match op
    case Ensure(cfg, st) =>
    case Close(exit) =>
    case Ask(q, cfg, st, answer) =>
  }

  /** While no `__exit__` raises, "no agent, no server" and "every entered server
      is exited once, unless it is the one held" hold after any sequence of operations. */
  lemma {:induction false} RunKeepsHealthy(s: State, ops: seq<Op>)
    requires Healthy(s) && AllExitsSucceed(ops)
    ensures Healthy(Run(s, ops))
    decreases |ops|
  {
    if ops != [] {
      ApplyKeepsHealthy(s, ops[0]);
      assert AllExitsSucceed(ops[1..]) by {
        forall i | 0 <= i < |ops[1..]| ensures ExitSucceeds(ops[1..][i]) {
          assert ops[1..][i] == ops[i + 1];
        }
      }
      RunKeepsHealthy(Apply(s, ops[0]), ops[1..]);
    }
  }

  /** Once built, the agent is never rebuilt, replaced or cleared, and no server is entered again. */
  lemma {:induction false} RunKeepsAgent(s: State, ops: seq<Op>)
    requires s.agent.Some?
    ensures Run(s, ops).agent == s.agent && Run(s, ops).enters == s.enters
    decreases |ops|
  {
    if ops != [] {
      RunKeepsAgent(Apply(s, ops[0]), ops[1..]);
    }
  }

  /** Once the agent exists and no `__exit__` raises, the held server is exited
      at most once however often the close runs, and is never replaced. */
  lemma {:induction false} RunExitsAtMostOnce(s: State, ops: seq<Op>)
    requires s.agent.Some? && AllExitsSucceed(ops)
    ensures Run(s, ops).exits <= s.exits + (if s.server.Some? then 1 else 0)
    ensures Run(s, ops).server.None? || Run(s, ops).server == s.server
    ensures s.server.None? ==> Run(s, ops).server.None? && Run(s, ops).exits == s.exits
    decreases |ops|
  {
    if ops != [] {
      assert ExitSucceeds(ops[0]);
      assert AllExitsSucceed(ops[1..]) by {
        forall i | 0 <= i < |ops[1..]| ensures ExitSucceeds(ops[1..][i]) {
          assert ops[1..][i] == ops[i + 1];
        }
      }
      RunExitsAtMostOnce(Apply(s, ops[0]), ops[1..]);
    }
  }

  /** An explicit close followed by the exit hook's close calls `__exit__` once. */
  lemma CloseTwiceExitsOnce(s: State, first: Step<()>, second: Step<()>)
    requires first.Done?
    ensures CloseStep(CloseStep(s, first).next, second) == Transition(CloseStep(s, first).next, Ok, [])
    ensures CloseStep(s, first).next.exits == s.exits + (if s.server.Some? then 1 else 0)
  {
  }

  /** A failed attempt from a consistent state leaves no handle behind and every
      server it entered exited, so the next attempt starts from scratch. */
  lemma FailedEnsureLeavesNothing(s: State, cfg: Config, st: InitSteps)
    requires Healthy(s) && s.agent.None? && st.rollbackExit.Done?
    requires EnsureStep(s, cfg, st).result.Err?
    ensures EnsureStep(s, cfg, st).next.agent.None? && EnsureStep(s, cfg, st).next.server.None?
    ensures Healthy(EnsureStep(s, cfg, st).next)
  {
  }

  /** A rollback whose own `__exit__` raises leaves a server held without an agent. */
  lemma RollbackExitFailureKeepsServer(s: State, cfg: Config, st: InitSteps)
    requires s.agent.None? && HasKey(cfg) && st.client.Done? && st.enter.Raised? && st.rollbackExit.Raised?
    ensures EnsureStep(s, cfg, st).next.server == Some(st.client.value)
    ensures !Consistent(EnsureStep(s, cfg, st).next)
    ensures EnsureStep(s, cfg, st).result == Err(Propagated(st.rollbackExit.message))
  {
  }
}
