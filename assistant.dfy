/**
 * The module-level globals `agent` and `perplexity_mcp_server` of the search
 * assistant, as an object whose methods reassign them in place, in the order
 * the source does. Each method is proved to make exactly the transition of
 * the corresponding function in module Lifecycle, so what is proved there
 * holds of the object.
 */
module Assistant {
  import opened Lifecycle

  class SearchAssistant {
    var agent: Option<AgentHandle>
    var server: Option<ServerHandle>
    /** Calls of `__enter__` and `__exit__` so far. */
    var enters: nat
    var exits: nat

    function Snapshot(): State
      reads this
    {
      State(agent, server, enters, exits)
    }

    /** Module import: both globals None, nothing entered or exited. */
    constructor ()
      ensures Snapshot() == Initial
    {
      agent, server := None, None;
      enters, exits := 0, 0;
    }

    /** `_close_mcp_server`; `exit` is what the server's `__exit__` does. */
    method CloseMcpServer(exit: Step<()>) returns (status: Status, calls: seq<Call>)
      modifies this
      ensures Transition(Snapshot(), status, calls) == CloseStep(old(Snapshot()), exit)
      ensures agent == old(agent) && enters == old(enters)
    {
      status, calls := Ok, [];
      if server.Some? {
        var h := server.value;
        calls := [Exit(h)];
        exits := exits + 1;
        match exit {
          case Raised(m) =>
            // the exception escapes before the reference is cleared
            status := Err(Propagated(m));
          case Done(_) =>
            server := None;
        }
      }
    }

    /** `_ensure_search_agent_initialized`; `st` is what each external call does. */
    method EnsureSearchAgentInitialized(cfg: Config, st: InitSteps) returns (status: Status, calls: seq<Call>)
      modifies this
      ensures Transition(Snapshot(), status, calls) == EnsureStep(old(Snapshot()), cfg, st)
    {
      status, calls := Ok, [];
      if agent.Some? {
        return;
      }
      if !HasKey(cfg) {
        status := Err(ValueError(MissingKeyMessage));
        return;
      }
      // the try block: failure holds the message of the call that raised
      var failure: Option<string> := None;
      calls := [ConstructClient];
      match st.client {
        case Raised(m) =>
          failure := Some(m);
        case Done(h) =>
          server := Some(h);
          calls := calls + [Enter(h)];
          enters := enters + 1;
          match st.enter {
            case Raised(m) =>
              failure := Some(m);
            case Done(_) =>
              calls := calls + [BuildModel(cfg.modelId)];
              match st.model {
                case Raised(m) =>
                  failure := Some(m);
                case Done(model) =>
                  calls := calls + [ListTools(h)];
                  match st.tools {
                    case Raised(m) =>
                      failure := Some(m);
                    case Done(tools) =>
                      calls := calls + [BuildAgent];
                      match st.build {
                        case Raised(m) =>
                          failure := Some(m);
                        case Done(_) =>
                          agent := Some(AgentHandle(model, cfg.systemPrompt, tools, cfg.sessionId));
                      }
                  }
              }
          }
      }
      // the except block
      if failure.Some? {
        var closed, closeCalls := CloseMcpServer(st.rollbackExit);
        calls := calls + closeCalls;
        status := if closed.Err? then closed else Err(InitError(InitFailurePrefix + failure.value));
      }
    }

    /** `search_assistant(query)`; `answer` is what `agent(query)` does. */
    method Ask(query: string, cfg: Config, st: InitSteps, answer: Step<string>) returns (reply: Reply, calls: seq<Call>)
      modifies this
      ensures Transition(Snapshot(), reply, calls) == AskStep(old(Snapshot()), cfg, st, query, answer)
    {
      var status;
      status, calls := EnsureSearchAgentInitialized(cfg, st);
      if status.Err? {
        reply := Failed(status.error);
        return;
      }
      calls := calls + [InvokeAgent(query)];
      match answer {
        case Done(r) => reply := Answered(r);
        case Raised(m) => reply := Failed(Propagated(m));
      }
    }
  }
}
