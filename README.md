# Search assistant lifecycle, in Dafny

The search assistant (`agents/search_assistant.py`) keeps two module-level handles.
One is `perplexity_mcp_server`, an MCP client running the Perplexity search tool in a docker container.
The other is `agent`, a strands agent built on a Bedrock model and on that server's tools.
Both start as `None`.
The first query initialises them lazily, in a fixed order.
A failure rolls back by closing the server.
`_close_mcp_server` exits the held server and forgets it once `__exit__` returns; a server whose `__exit__` raised stays held and is exited again by the next close, for example the exit hook's.
An interactive loop strips each line, reprompts on a blank line, ends on an exit word and otherwise sends the line as a query, carrying on after a failed query.

The model has three modules:

- `Lifecycle` (lifecycle.dfy) states the lifecycle as a state machine over values.
  `State` holds the two handles and the counts of `__enter__` and `__exit__` calls.
  `CloseStep`, `EnsureStep` and `AskStep` give one transition each.
  `Run` applies any sequence of operations, and lemmas state what holds across runs.
  Every foreign call is a `Step` parameter: it either returns a value or raises with a message.
  These calls are client construction, `__enter__`, `BedrockModel`, `list_tools_sync`, `Agent(...)`, `__exit__` and `agent(query)`.
  Each transition also returns the external calls it made, in the order the source makes them.
- `Assistant` (assistant.dfy) has the class `SearchAssistant`.
  Its fields `agent`, `server`, `enters` and `exits` are reassigned in place, in the same order as the source.
  Each method is proved to make exactly the transition of its `Lifecycle` function.
- `Cli` (cli.dfy) holds the line handling of the `__main__` block.
  It models `str.strip`, the lower-casing and the classification of a line, and one loop iteration.
  `Session` is the loop as a method over the class, with end of input ending it (the corrected loop of "## Findings").
  `Program` and `RunProgram` cover start-up (exit status 1 on failure), the loop and the exit hook's close.

## Model

| member | source | states |
|---|---|---|
| `Lifecycle.CloseStep` | agents/search_assistant.py:46-51 | with a server held, `__exit__` is called exactly once; the reference is cleared when it returns, and its exception escapes with the server still held when it raises; with no server, nothing happens and no call is made; `agent` and the enter count never change |
| `Lifecycle.Rollback` | agents/search_assistant.py:95-97 | the except block closes whatever server is held and fails with `"Failed to initialize search assistant: " + message`; if the close's own `__exit__` raises, that error escapes instead; the calls already made are kept in front of the `__exit__` |
| `Lifecycle.EnsureStep` | agents/search_assistant.py:54-97 | if an agent exists, nothing changes and no call is made; without a key (unset or empty), it fails with the ValueError message before any client is constructed; it succeeds exactly when the key is set and no call raises; on success the new server (entered once) and an agent built from the model, the system prompt, exactly the listed tools and the session id are held, after the five calls in source order; on a failure there is no agent, the calls up to the failing one were made in order, and then the rollback |
| `Lifecycle.AskStep` | agents/search_assistant.py:100-113 | an initialisation error is returned unchanged and the agent is not called; otherwise the agent is called once, after initialisation, and its answer or error is returned; with an agent in place a query changes no handle and no counter |
| `Lifecycle.ApplyKeepsHealthy` | agents/search_assistant.py:42-97 | one operation whose `__exit__` calls return keeps "no agent ⇒ no server" and "enters = exits + (1 if a server is held)" |
| `Lifecycle.RunKeepsHealthy` | agents/search_assistant.py:42-97 | any sequence of ensure, close and query operations whose `__exit__` calls return keeps both invariants |
| `Lifecycle.RunKeepsAgent` | agents/search_assistant.py:58-59 | once the agent exists, no sequence of operations replaces or clears it or enters a server again |
| `Lifecycle.RunExitsAtMostOnce` | agents/search_assistant.py:46-51 | once the agent exists and `__exit__` returns, any number of closes, ensures and queries exit the held server at most once and never replace it; with no server held, none is exited or acquired |
| `Lifecycle.CloseTwiceExitsOnce` | agents/search_assistant.py:46-51 | an explicit close followed by the exit hook's close calls `__exit__` once; the second close makes no call and changes nothing |
| `Lifecycle.FailedEnsureLeavesNothing` | agents/search_assistant.py:95-97 | from a consistent state, a failed initialisation whose rollback `__exit__` returns leaves no agent and no server, and every server it entered has been exited, so the next call starts from scratch |
| `Lifecycle.RollbackExitFailureKeepsServer` | agents/search_assistant.py:95-96 | if `__enter__` raises and the rollback's `__exit__` raises too, that error escapes and the new server stays held with no agent, which breaks "no agent ⇒ no server" |
| `Assistant.SearchAssistant.constructor` | agents/search_assistant.py:42-43 | both handles start as None, with no call made |
| `Assistant.SearchAssistant.CloseMcpServer` | agents/search_assistant.py:46-51 | updates the fields in place as `CloseStep` says, and never touches `agent` |
| `Assistant.SearchAssistant.EnsureSearchAgentInitialized` | agents/search_assistant.py:54-97 | updates the fields in place and returns the status and calls as `EnsureStep` says, rolling back through `CloseMcpServer` |
| `Assistant.SearchAssistant.Ask` | agents/search_assistant.py:100-113 | ensures initialisation, then asks the agent, as `AskStep` says |
| `Cli.LeadingSpaces` | agents/search_assistant.py:160 | the leading run of whitespace is all whitespace and is followed by a non-whitespace character or the end |
| `Cli.TrailingSpaces` | agents/search_assistant.py:160 | the trailing run of whitespace is all whitespace and is preceded by a non-whitespace character or the start |
| `Cli.Strip` | agents/search_assistant.py:160 | the result is empty exactly when the line is all whitespace; otherwise it starts and ends with non-whitespace; it is the infix between an all-whitespace prefix and suffix |
| `Cli.StripIsUnique` | agents/search_assistant.py:160 | any infix with an all-whitespace prefix and suffix, and non-whitespace at both of its ends, is what strip returns |
| `Cli.StripIsIdempotent` | agents/search_assistant.py:160 | stripping twice gives the same as stripping once |
| `Cli.Lower` | agents/search_assistant.py:165 | lower-casing keeps the length and maps every character by itself |
| `Cli.Classify` | agents/search_assistant.py:160-175 | a line is blank exactly when it is all whitespace; it quits exactly when its stripped, lower-cased form is one of exit, quit, bye, goodbye; otherwise it is a query whose text is the stripped line |
| `Cli.PaddedExitWordQuits` | agents/search_assistant.py:160-172 | an exit word in any letter case, with any whitespace around it, ends the session |
| `Cli.Iterate` | agents/search_assistant.py:158-190 | the corrected iteration (see "## Findings"): an iteration stops exactly on an exit word, a keyboard interrupt or end of input, and then changes nothing; a blank line only reprompts; a query is sent stripped, and whatever it raises, the loop continues |
| `Cli.IterateAsWritten` | agents/search_assistant.py:187-190 | as written, an EOFError from `input()` is caught by the generic handler: the iteration continues with nothing changed |
| `Cli.AsWrittenEndOfInputNeverStops` | agents/search_assistant.py:158-190 | at end of input the as-written iteration is a fixpoint that does not stop, while the corrected one stops |
| `Cli.ReplRunAsWritten` | agents/search_assistant.py:158-190 | the loop as written stops only on an exit word or a keyboard interrupt, at the first such read, never on end of input |
| `Cli.AsWrittenSessionNeverEnds` | agents/search_assistant.py:187-190 | as written, any number of end-of-input reads in a row never stop the loop, change no handle or counter and make no external call |
| `Cli.ReplRun` | agents/search_assistant.py:158-190 | the corrected loop over the whole input, followed by an implicit end of input: the loop reads up to and including the first ending line or event and no further, and reads all of the given input when none ends it |
| `Cli.SessionKeepsState` | agents/search_assistant.py:174-178 | after a successful start-up, no session changes the handles or the counters, so failed queries never tear down the agent or initialise again |
| `Cli.EndOfInputEndsSession` | agents/search_assistant.py:158-160 | in the corrected loop, end of input ends the session at once with nothing changed |
| `Cli.Session` | agents/search_assistant.py:158-190 | the corrected loop over the assistant object reads and updates exactly as `ReplRun` says |
| `Cli.Program` | agents/search_assistant.py:147-155 | over the corrected loop and the whole input: the exit status is 1 exactly when start-up initialisation fails, and 0 otherwise; the agent left at the end is the one start-up built |
| `Cli.ProgramReleasesServer` | agents/search_assistant.py:116 | from a fresh process, if no `__exit__` raises, the program ends holding no server, having entered at most one and exited every one it entered |
| `Cli.RunProgram` | agents/search_assistant.py:147-190 | start-up, the corrected loop and exit hook over the assistant object give exactly the status and state of `Program` |

## Left out

- The MCP client, `stdio_client`, `StdioServerParameters` and the docker command line are left out. They are external process and transport code. Construction, `__enter__`, `list_tools_sync` and `__exit__` are opaque steps that return a value or raise.
- `BedrockModel`, the strands `Agent` and the answer of `agent(query)` are left out. They are foreign libraries. The model handle and the answer are opaque values. The agent is recorded by its constructor arguments.
- The values of `BEDROCK_MODEL_ID`, `SESSION_ID` and the system prompt are not modelled. `config.constants` is not part of this model. All three are fields of `Config`.
- `config/env_setup.py` is left out. It is a single call to python-dotenv's `load_dotenv(..., override=False)`, and its non-override behaviour belongs to that library. The API key is a `Config` field, None when unset.
- The `STRANDS_TOOL_CONSOLE_MODE` setting, all printed text, the banner and the `@tool` decorator are left out. They do not affect the handles.
- Cli.Iterate: models the corrected iteration, in which end of input ends the session; the source as written catches EOFError at lines 187-190 and reads again (see "## Findings").
- Cli.ReplRun: models the corrected loop; its sequence of events is the whole input, and running out of events stands for the end of input that follows it.
- Cli.Session: runs the corrected loop of `Cli.ReplRun`, so it ends at end of input where the source as written loops forever on a closed input.
- Cli.Program: runs the corrected loop; after the whole input it reaches the exit hook with status 0, where the source as written would still be looping on EOFError.
- Cli.RunProgram: follows `Cli.Program`, so it too models the corrected loop over the whole input.
- `input()` is replaced by a sequence of events. A keyboard interrupt is modelled only between reads, where it ends the loop. An interrupt in the middle of an initialisation, and the partial state it would leave, is not modelled.
- `atexit.register` is modelled as one close after the program ends. An exception from that close is ignored by the Python runtime, so it does not change the exit status.
- Exception chaining (`raise ... from e`) is not modelled. Only the raised error's message is kept.
- `Lower`: only ASCII letters are lower-cased. Unicode case mappings of other characters are not modelled.
- Concurrent callers are not modelled. The source runs on one thread and has no lock.
- Teardown does not guard against `__exit__` raising: the exception escapes the close and the rollback (lines 50-51 and 96). `search_assistant` passes errors on unchanged (lines 110-111). This is why "no agent ⇒ no server" is proved only for runs in which `__exit__` returns.

## Findings

| source | as written | input that shows it | evidently intended | confidence | as-written member | corrected member |
|---|---|---|---|---|---|---|
| agents/search_assistant.py:187-190 | at end of input, `input()` raises EOFError; the generic `except Exception` handler catches it, prints an error and goes round again | standard input piped from a file or another program that has ended: every later read raises EOFError again, so the loop never ends (see `Cli.AsWrittenSessionNeverEnds`) | end of input ends the session, as a keyboard interrupt does | not executed; medium (for a terminal, a later read may block instead of failing again) | `Cli.IterateAsWritten` | `Cli.Iterate` |
