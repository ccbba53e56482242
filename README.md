# Tool registry, chat orchestration and MCP tool bodies — a Dafny model

This project models the core of a Spring AI chat application that exposes tools
discovered from an MCP server, together with the pure tool bodies of that
Python MCP server.

- **Tool-availability registry** (`ToolManagementService`), in `tool_management.dfy`.
  It holds the provider's fixed, ordered universe of tools (name and description), plus a
  mutable set of disabled names. It is modelled as the class
  `ToolManagement.ToolManagementService`:
  - `tools` is a `const` sequence;
  - `disabled` is a `set<string>` field that `EnableTool` and `DisableTool` reassign;
  - `FindToolFullName` is the first-match scan, written as a loop.

  The listing and the enabled subset are stream pipelines in the source. They are
  modelled as pure functions (`StatusList`, `EnabledList`) over the universe and the
  disabled set. The effect of enable and disable on the set is given by `AfterEnable`
  and `AfterDisable`, and the lemmas about the registry are stated over these.
- **Chat orchestration rule** (`ChatService.chat`), in `chat_service.dfy`. The completion
  engine is a parameter, a total function from the built request to an outcome, either
  `Ok(content)` or `Err(message)`. `Respond` is the pure decision:
  - it builds a plain request, or a request with tools, depending on whether any tool is enabled;
  - it folds the outcome into a `ChatResult`.

  `Chat` runs that decision against a live registry. It reads the enabled tools once and
  has no `modifies` clause.
- **Python MCP tool bodies** (`text_utils`, `generate_greeting`, `get_weather`), in
  `server_tools.dfy`. Their JSON replies are modelled as records. The whitespace of
  `str.split()` is CPython's own set of whitespace characters. Case mapping covers ASCII
  letters only.

`wrappers.dfy` holds the `Option` type that stands for Java's nullable references.

`chat` passes `e.getMessage()` and `content()` through unchanged, and either may be null
in Java. The model's `Outcome` therefore carries an `Option<string>` on both sides, and
the model promises neither a non-empty error on failure nor a present response on
success. What `Respond` does promise is what the code guarantees:
- a success has no error;
- a failure has no response;
- `toolsUsed` is empty.

The enthusiastic greeting of `generate_greeting` is framed, in the server's source text,
by the four characters U+00F0 U+0178 U+017D U+2030. They are the UTF-8 bytes of the
party-popper emoji decoded as Windows-1252 and encoded again. Python reads the file as
UTF-8 and returns those four characters, so the model's greeting table holds them too.

## Model

| member | source | states |
|---|---|---|
| `ToolManagement.Resolve` | src/main/java/com/example/mcp/service/ToolManagementService.java:90-98 | None exactly when no tool's name equals the query or ends with `"_" + query`; otherwise the name of the first such tool in provider order — the first-matching index determines the result and the result comes from one |
| `ToolManagement.ToolManagementService.FindToolFullName` | src/main/java/com/example/mcp/service/ToolManagementService.java:90-98 | the early-return scan returns exactly the first-match resolution |
| `ToolManagement.EarlierSuffixBeatsLaterExact` | src/main/java/com/example/mcp/service/ToolManagementService.java:91-96 | a suffix match earlier in provider order wins over a later exact match of the query |
| `ToolManagement.StatusList` | src/main/java/com/example/mcp/service/ToolManagementService.java:41-50 | one row per provider tool, in provider order, with the provider's name and description, enabled exactly when the name is not disabled |
| `ToolManagement.EnabledList` | src/main/java/com/example/mcp/service/ToolManagementService.java:55-59 | a tool is in the enabled sequence exactly when it is a provider tool whose name is not disabled; each entry keeps its provider multiplicity (none when disabled), so duplicates are not dropped; never longer than the universe |
| `ToolManagement.EnabledListKeepsOrder` | src/main/java/com/example/mcp/service/ToolManagementService.java:56-58 | the enabled sequence is a subsequence of the provider sequence (relative order kept) |
| `ToolManagement.EnabledNamesAreComplement` | src/main/java/com/example/mcp/service/ToolManagementService.java:55-59 | the enabled names are exactly the universe's names minus the disabled set |
| `ToolManagement.ToolManagementService.GetAllToolsStatus` | src/main/java/com/example/mcp/service/ToolManagementService.java:41-50 | over the live state: one row per provider tool in provider order, with its name and description, enabled exactly when its name is not in the disabled set |
| `ToolManagement.ToolManagementService.GetEnabledToolCallbacks` | src/main/java/com/example/mcp/service/ToolManagementService.java:55-59 | over the live state: a subsequence of the provider sequence keeping every entry whose name is not disabled (with its multiplicity) and no other; its names are the universe's minus the disabled set |
| `ToolManagement.AfterEnable` | src/main/java/com/example/mcp/service/ToolManagementService.java:64-72 | the new disabled set is inside the old one, the only name that can leave it is the resolved one, and the resolved name is not in it afterwards |
| `ToolManagement.AfterDisable` | src/main/java/com/example/mcp/service/ToolManagementService.java:77-85 | the new disabled set contains the old one, the only name that can join it is the resolved one, and the resolved name is in it afterwards |
| `ToolManagement.ToolManagementService.constructor` | src/main/java/com/example/mcp/service/ToolManagementService.java:26-30 | keeps the provider's universe; every tool starts enabled (empty disabled set) |
| `ToolManagement.ToolManagementService.EnableTool` | src/main/java/com/example/mcp/service/ToolManagementService.java:64-72 | returns true exactly when the name resolves; the new disabled set is the old one minus the resolved name (unchanged when unresolved); keeps the universe invariant |
| `ToolManagement.ToolManagementService.DisableTool` | src/main/java/com/example/mcp/service/ToolManagementService.java:77-85 | returns true exactly when the name resolves; the new disabled set is the old one plus the resolved name (unchanged when unresolved); keeps the universe invariant |
| `ToolManagement.UnknownNameIsNoOp` | src/main/java/com/example/mcp/service/ToolManagementService.java:64-85 | with a name no tool matches, enable and disable leave the disabled set and the whole listing unchanged |
| `ToolManagement.DisableReportsDisabled` | src/main/java/com/example/mcp/service/ToolManagementService.java:77-85 | disabling a resolvable name inserts the resolved full name and the listing then reports that tool as disabled |
| `ToolManagement.EnableReportsEnabled` | src/main/java/com/example/mcp/service/ToolManagementService.java:64-72 | enabling a resolvable name removes the resolved full name and the listing then reports that tool as enabled |
| `ToolManagement.DisableThenEnable` | src/main/java/com/example/mcp/service/ToolManagementService.java:64-85 | disable then enable of the same query restores `enabled == true` for the resolved tool |
| `ToolManagement.EnableThenDisable` | src/main/java/com/example/mcp/service/ToolManagementService.java:64-85 | enable then disable of the same query leaves the resolved tool disabled |
| `ToolManagement.EnableDisableIdempotent` | src/main/java/com/example/mcp/service/ToolManagementService.java:64-85 | repeating enable (or disable) leaves the set as the first call left it (set semantics of add/remove) |
| `ToolManagement.OnlyResolvedToolChanges` | src/main/java/com/example/mcp/service/ToolManagementService.java:67-80 | every listing row whose name is not the resolved one is identical before and after enable or disable |
| `ToolManagement.DisabledStaysInUniverse` | src/main/java/com/example/mcp/service/ToolManagementService.java:26-85 | if the disabled set holds only provider names, it still does after enable or disable (only resolved names are inserted) |
| `ToolManagement.CalcScenario` | src/main/java/com/example/mcp/service/ToolManagementService.java:41-98 | with `calc_add` and `calc_sub`, the alias "add" resolves to `calc_add`; disabling it lists `calc_add` disabled and `calc_sub` enabled, and only `calc_sub` remains enabled |
| `ChatService.BuildRequest` | src/main/java/com/example/mcp/service/ChatService.java:49-65 | the request carries the user's message and declares exactly the enabled tools; it is a plain request with no tools exactly when none are enabled |
| `ChatService.Fold` | src/main/java/com/example/mcp/service/ChatService.java:42-73 | success exactly on an engine `Ok`; a success carries the engine's content and no error; a failure carries no response and the failure's message; `toolsUsed` always empty |
| `ChatService.Respond` | src/main/java/com/example/mcp/service/ChatService.java:39-73 | for any engine: success exactly when the engine's outcome for the built request is `Ok`; `toolsUsed` empty; a success has no error; a failure has no response |
| `ChatService.SuccessCarriesContent` | src/main/java/com/example/mcp/service/ChatService.java:47-68 | on engine success the result is `(true, content, [], null)` |
| `ChatService.FailureIsFolded` | src/main/java/com/example/mcp/service/ChatService.java:70-73 | on any engine failure the result is `(false, null, [], message)` |
| `ChatService.Chat` | src/main/java/com/example/mcp/service/ChatService.java:35-74 | the result is the decision over the registry's current enabled tools; the registry is not modified |
| `ChatService.CalcScenarioDispatch` | src/main/java/com/example/mcp/service/ChatService.java:39-58 | after disabling "add" in the calculator universe, the request offers only `calc_sub` |
| `ServerTools.TextUtils` | mcp_server/server.py:149-174 | an unknown operation exactly when it is outside the five supported names; then the error names it and lists exactly `uppercase, lowercase, reverse, word_count, char_count` in that order; every result echoes the operation and the original text |
| `ServerTools.Reverse` | mcp_server/server.py:160 | the reversal has the text's length |
| `ServerTools.ReverseIndex` | mcp_server/server.py:160 | position `k` of the reversal is position `len - 1 - k` of the text |
| `ServerTools.ReverseInvolutive` | mcp_server/server.py:160 | reversing twice restores the text |
| `ServerTools.TextUtilsReverse` | mcp_server/server.py:160 | "reverse" yields a text of the same length whose reversal is the input |
| `ServerTools.TextUtilsCharCount` | mcp_server/server.py:162 | "char_count" yields the text's length |
| `ServerTools.Words` | mcp_server/server.py:161 | every word of `split()` is non-empty and free of whitespace |
| `ServerTools.WordsCountRuns` | mcp_server/server.py:161 | the number of words equals the number of positions where a maximal non-whitespace run begins |
| `ServerTools.TextUtilsWordCount` | mcp_server/server.py:161 | "word_count" yields the number of maximal non-whitespace runs |
| `ServerTools.Upper` | mcp_server/server.py:158 | same length; each character upper-cased (ASCII) |
| `ServerTools.Lower` | mcp_server/server.py:159 | same length; each character lower-cased (ASCII) |
| `ServerTools.LowerIdempotent` | mcp_server/server.py:158-159 | for the ASCII-only case maps of this model (not Python's full Unicode ones, where `"ß".upper().lower()` is `"ss"`): lower-casing is idempotent and ignores prior upper-casing; upper-casing is idempotent |
| `ServerTools.TextUtilsUppercase` | mcp_server/server.py:158 | "uppercase" yields exactly the upper-cased text, echoing operation and text; no lower-case ASCII letter is left |
| `ServerTools.TextUtilsLowercase` | mcp_server/server.py:159 | "lowercase" yields exactly the lower-cased text, echoing operation and text; no upper-case ASCII letter is left |
| `ServerTools.GenerateGreeting` | mcp_server/server.py:99-119 | echoes name and style; a known style gets its own greeting from the table (the enthusiastic one framed by the four characters U+00F0 U+0178 U+017D U+2030 the source holds), any other style the casual one |
| `ServerTools.GreetingStyles` | mcp_server/server.py:107-111 | the styles with a greeting are exactly formal, casual and enthusiastic |
| `ServerTools.UnknownStyleIsCasual` | mcp_server/server.py:113-119 | an unknown style gives the casual greeting while the reply still echoes the given style |
| `ServerTools.GreetingEmbedsName` | mcp_server/server.py:107-111 | every greeting, whatever the style, contains the name |
| `ServerTools.GreetingsDiffer` | mcp_server/server.py:107-111 | the three styles give three different greetings |
| `ServerTools.GetWeather` | mcp_server/server.py:58-92 | echoes the city; a lower-cased city in the table gets that row's temperature, condition and humidity and the mock note; any other gets 20, "Unknown", 60 and the default note |
| `ServerTools.WeatherIgnoresCase` | mcp_server/server.py:74-92 | two spellings with the same lower-case form get the same reply except for the echoed city |
| `ServerTools.MockCitiesFound` | mcp_server/server.py:66-77 | every table key is already lower case, so each city is found under its own name |
| `ServerTools.WeatherTokyo` | mcp_server/server.py:66-84 | "TOKYO" gets the tokyo row (28, Sunny, 55) with the city echoed as written |

## Left out

- Concurrency of the disabled set: the source uses `ConcurrentHashMap.newKeySet()`. The model is a sequential set, so its snapshot and last-write-wins behaviour under concurrent requests is not modelled.
- Tool invokers and the tool provider: a provider tool is its name and description only. The source asks the provider for its tool list again on every operation; the model takes that answer as one fixed sequence, given at construction. A list that changes between calls is not modelled.
- A provider call that throws is not modelled. In `chat` the enabled tools are read before the `try` block (ChatService.java:39), so such a failure would escape `chat` rather than become a failed ChatResult.
- The completion engine's internals (Spring AI `ChatClient`, building the client, the network): the engine is an abstract function from request to outcome, and any exception is an `Err`.
- ChatService.Chat: "reads the enabled tools exactly once" is shown by the body's single call; no contract states it.
- A null chat message (a request body without `message`, ChatController.java:85): the model takes the message as a string.
- A null tool name: Java would resolve `"_" + null` as `"_null"`. Path variables are never null, so the model takes strings only.
- HTTP routing and the mapping of results to 200/400 responses (ChatController.java), the Spring Boot bootstrap, `init` and all logging.
- `calculator` (floating-point arithmetic), `get_datetime` (wall clock and `strftime`), `get_server_info` (a constant) and `mcp.run()` (stdio transport).
- `json.dumps`: replies are records, not JSON text.
- ServerTools.Upper: ASCII letters only. Python's full Unicode mapping can change the length (`"ß".upper()` is `"SS"`).
- ServerTools.Lower: ASCII letters only. Python's full Unicode lower-casing is not modelled, for instance the Kelvin sign lower-casing to `k`, which would let `get_weather` find a table city spelled with it.
- Python strings that contain lone surrogates: Dafny characters are Unicode scalar values.
