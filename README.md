# ReAct research agent — a Dafny model

This project models the core of a small ReAct (Reasoning + Acting) research
assistant written in Python. Given a task, the agent repeatedly asks a chat
model for a step, decodes a JSON action from the reply, and either stops with
a final answer or runs one of its tools and feeds the result back as an
"Observation: …" message. It gives up after `max_iterations` model calls.

The model covers, file by file:

- **agent.py**: `extract_json_block` (module `ActionParser`); the tool
  registry built by `ReActAgent.__init__`, `_get_system_prompt` and the
  `run` loop (module `Agent`, class `ReActAgent`). The loop is an imperative
  method (`Run`, `Loop`, `Pass`) proved equal to a recursive specification
  (`RunFrom`, `Iteration`), and the promised properties are lemmas about
  that specification.
- **base_tool.py**: name and description normalisation in
  `model_post_init` and `get_tool_description_for_llm` (module `BaseTool`,
  class `Tool`, whose fields are rewritten in place).
- **search_tool.py** and **report_tool.py**: the simulated search formatter
  and the report tool's guard chain (modules `SearchTool`, `ReportTool`).
- **gui.py**: `insert_formatted_text`, the Markdown line tagger (module
  `Gui`). The Tk text widget is a class that records the `(text, tags)`
  insertions made at its end.

Supporting modules: `PyText` gives the Python `str` operations used
(`strip`, `lower`, `replace`, `startswith`, `in`, `split`, `join`);
`PyJson` gives the values `json.loads` produces and the Python operations the
loop applies to them (truthiness, `in`, `d[k]`, `d.get(k)`, `v[:100]`,
`str`, `repr`), each either yielding a value or raising; `Interfaces` gives
chat messages, the completion oracle and tool outcomes.

External collaborators are oracles:

- The chat model is a function from the message list to a `Completion`:
  either the reply text or the text of an exception. `ChatClient` records
  every message list it is sent.
- `json.loads` is the parameter `parse: string -> Option<Json>`: a partial
  function, `None` standing for `JSONDecodeError`.
- A tool that is not one of the two concrete ones is `Custom(run)`, a
  function from its argument to "returned text" or "raised error".
- Exception texts are those of CPython 3.12 (for example
  `'NoneType' object is not subscriptable`). In 3.12 a slice is hashable, so
  `dict[:100]` raises `KeyError(slice(None, 100, None))`.

Where the code behaves in ways a reader might not expect, the model follows
the code:

- The registry does not reject duplicate names. `{tool.name: tool for tool
  in tools}` lets a later tool overwrite an earlier one of the same name
  (`Agent.RegistryLastWins`).
- The lookup in `run` is exact. The name the model gives is not
  normalised, so "Internet Search Tool" or "internet-search-tool" is not
  found (`Agent.ReActAgent.UnnormalizedNameNotFound`).
- `extract_json_block` returns any value the whole text decodes to,
  whatever its shape. The check for an `action` with a `tool_name` happens
  in `run`, and a truthy number or bool makes that check raise. A str or
  list raises at `action_data['action']` only when "action" is in it (as a
  substring of the str, or as an element of the list). Any other str or list
  is reported as malformed and gets the corrective observation
  (`Agent.DecideSequenceReply`).
- The fenced-block pattern is the raw string ```` ```json\\n(.*?)\\n``` ````.
  Its `\\n` is an escaped backslash followed by `n`, so the fence must hold
  a literal backslash and an `n`, not a line break. The model keeps this
  behaviour: a block fenced with real line breaks is never recovered
  (`ActionParser.NoBackslashNoFallback`).
- `argument[:100]` is evaluated before the `final_answer` test and is not
  guarded. A missing or null argument therefore raises, even for a final
  answer, and the pass ends with an "An error occurred" observation
  (`Agent.DecideMissingArgument`, `Agent.ReActAgent.IterationFault`).

## Model

| member | source | states |
|---|---|---|
| `ActionParser.FencedBlock` | agent.py:26-28 | a block found is the group of some match: it follows an opening delimiter and ends where a closing delimiter starts |
| `ActionParser.ExtractJsonBlock` | agent.py:12-38 | if the whole text decodes, that value is the result and the fence is never consulted; any other non-None result comes from a fenced block |
| `ActionParser.FencedBlockIsLeftmostLazy` | agent.py:26-28 | the block found is the group of the leftmost match of the pattern, with the shortest (lazy) group from that start |
| `ActionParser.FencedBlockNoneIffNoMatch` | agent.py:26-27 | no block is found exactly when the pattern matches nowhere in the text |
| `ActionParser.FencedBlockRoundTrip` | agent.py:26-28 | a block wrapped in the literal-backslash fence is found again unchanged whenever no fence starts in the text before it and no closing delimiter occurs inside it |
| `ActionParser.ExtractFromFence` | agent.py:23-35 | when the whole text does not decode, the result is the decoding of the stripped group of the leftmost, laziest match |
| `ActionParser.NoBackslashNoFallback` | agent.py:26 | text without a backslash has no fenced block, so a reply fenced with real newlines gives only the whole-text decoding |
| `PyJson.Truthy` | agent.py:148 | a value is falsy exactly when it is None, False, 0, "", [] or {} |
| `PyJson.Contains` | agent.py:148 | `key in v`: a key test on a dict, a member test on a list, a substring test on a str; raises exactly on None, bool and int |
| `PyJson.Subscript` | agent.py:148 | `v['action']` succeeds exactly on a dict and yields the stored value; a str or list raises |
| `PyJson.GetMethod` | agent.py:155-156 | `.get(key)` yields the stored value or None on a dict and raises on anything else |
| `PyJson.SlicePrefix` | agent.py:159 | `v[:n]` succeeds exactly on a str or list and yields its first n elements; None, bool, int and dict raise |
| `PyJson.InStrKeyedDict` | agent.py:166 | `name in self.tools` raises for a list or dict name and otherwise holds exactly for a str that is a key |
| `Agent.DictFromKeys` | agent.py:68 | a name is a registry key exactly when some tool has it |
| `Agent.DictFromLastWins` | agent.py:68 | the value stored for a key is the one of its last entry |
| `Agent.DictFromValues` | agent.py:68 | every stored pair is one of the entries |
| `Agent.KeyOrderListsKeys` | agent.py:68 | the key order lists each registry key exactly once |
| `Agent.NamedEntries` | agent.py:68 | the registry is built from the pairs (normalised name, tool), one per tool, in order |
| `Agent.RegistryKeysAreNames` | agent.py:68 | each tool is stored under its own name |
| `Agent.RegistryLastWins` | agent.py:68 | of several tools with the same name, the registry keeps the last |
| `Agent.ReActAgent.constructor` | agent.py:60-68 | the registry is the dict from tool names to tools, keys in first-insertion order |
| `Agent.NewAgent` | agent.py:60-70 | construction raises ValueError with the fixed message exactly when there is no client; otherwise the registry is built from the tools and its keys are listed in first-insertion order |
| `Agent.ReActAgent.ToolDescriptions` | agent.py:74-76 | one description per registry key, in registry order |
| `Agent.ReActAgent.SystemPrompt` | agent.py:72-108 | the prompt contains the registered tools' descriptions, in registry order, separated by blank lines |
| `Agent.ReActAgent.SystemPromptListsTools` | agent.py:72-108 | the system prompt contains the description of every registered tool |
| `Agent.ErrorObservation` | agent.py:184-188 | the message for an exception `e` in a pass is the user observation "Observation: An error occurred in the previous step: <e>. Please assess the situation and proceed." |
| `Agent.Decide` | agent.py:147-164 | a pass finishes or calls a tool only for a dict whose `action` dict has a `tool_name` and a str or list `argument`; it finishes exactly when the name is "final_answer" |
| `Agent.DecideWellFormedAction` | agent.py:154-164 | a well-formed action finishes with its argument when the name is "final_answer" and calls the named tool otherwise |
| `Agent.DecideMalformed` | agent.py:147-152 | nothing decoded, a falsy value, a dict without `action`, or an action dict without `tool_name` is malformed |
| `Agent.DecideMissingArgument` | agent.py:156-159 | a missing or null argument makes the preview slice raise, even for `final_answer` |
| `Agent.DecideScalar` | agent.py:148 | a truthy number or bool makes the validity test raise |
| `Agent.DecideSequenceReply` | agent.py:148-152 | a str or list reply never finishes the run and never runs a tool; it raises exactly when "action" is in it and is malformed otherwise |
| `Agent.ReActAgent.NotFound` | agent.py:167 | the not-found text starts with "Error: Tool '" and contains the name as `str` shows it |
| `Agent.ReActAgent.NotFoundListsTools` | agent.py:166-167 | the not-found observation names every registered tool |
| `Agent.ReActAgent.Dispatch` | agent.py:166-179 | an unknown name gives the not-found text; a registered tool's result is returned and its exception becomes "Error executing tool <name>: <e>"; only an unhashable name raises |
| `Agent.ReActAgent.UnnormalizedNameNotFound` | agent.py:166 | when every key is normalised, a name that is not normalised is reported as not found |
| `Agent.ReActAgent.DispatchSearch` | agent.py:170-174 | the registered search tool answers a str argument with the simulated search for it |
| `Agent.ReActAgent.Iteration` | agent.py:134-188 | a finishing pass adds only the reply; any other pass adds one or two messages, the last an observation; only registered tools run |
| `Agent.ReActAgent.IterationMalformed` | agent.py:144-152 | a malformed reply is followed by the corrective observation and runs no tool |
| `Agent.ReActAgent.IterationNotFound` | agent.py:166-182 | an unknown tool name is followed by the not-found observation and runs no tool |
| `Agent.ReActAgent.IterationToolRaised` | agent.py:176-182 | a tool that raises has "Error executing tool <name>: <e>" reported and the loop goes on |
| `Agent.ReActAgent.IterationTransportFailure` | agent.py:134-188 | a failed chat request adds no assistant message, only the error observation for its error, and runs no tool |
| `Agent.ReActAgent.IterationFault` | agent.py:147-188 | a reply whose action raises while it is read is kept and followed by the error observation for that exception; no tool runs |
| `Agent.ReActAgent.IterationDispatchRaised` | agent.py:166-188 | a tool name the registry lookup rejects is followed, after the reply, by the error observation for that exception; no tool runs |
| `Agent.ReActAgent.IterationFinishes` | agent.py:162-164 | a pass finishes exactly when the model answered with a reply that decodes to a final answer, whose argument is the answer |
| `Agent.ReActAgent.RunFrom` | agent.py:130-191 | the rest of a run only extends the conversation and makes at most one model call per pass left; a run no final answer ended has used every pass and returns the max-iterations message |
| `Agent.ReActAgent.RunSpec` | agent.py:110-191 | without a client the run returns the fixed error and calls no model; it never makes more than `max_iterations` calls; with a client, a run no final answer ended returns the max-iterations message |
| `Agent.ReActAgent.RunFromExhausted` | agent.py:190-191 | with no pass left the run returns the fixed max-iterations message |
| `Agent.ReActAgent.RunFromPass` | agent.py:130-188 | a finishing pass ends the run; any other pass leaves the rest to one fewer iteration |
| `Agent.ReActAgent.RunFromKeeps` | agent.py:122-191 | the transcript only grows, by replies and observations; at most `max_iterations` calls; each request is a prefix of the final transcript; an unfinished run used every pass and returns the max-iterations message; only registered tools run |
| `Agent.ReActAgent.RunFromStopsAtFinalAnswer` | agent.py:130-164 | the run stops at the first reply decoding to a final answer, returns its argument verbatim and ends the transcript with that reply |
| `Agent.ReActAgent.RunSpecStart` | agent.py:119-126 | without a client the run refuses at once; otherwise the transcript starts with the system prompt and the task message, which is also the first request |
| `Agent.ReActAgent.Pass` | agent.py:134-188 | the loop body makes one client call and does what `Iteration` describes |
| `Agent.ReActAgent.Loop` | agent.py:130-191 | the `for` loop returns the specified result and transcript and sends exactly the specified requests |
| `Agent.ReActAgent.Run` | agent.py:110-191 | `run(task)` returns the specified result and transcript and sends the client exactly the specified requests |
| `Interfaces.ChatClient.Create` | agent.py:136-142 | a completion call answers as the oracle does and is recorded |
| `BaseTool.NormalizeName` | base_tool.py:45 | normalisation keeps the length and maps each character on its own (lower, then ' ' and '-' to '_') |
| `BaseTool.NormalizeNameIsNormalized` | base_tool.py:45 | a normalised name has no space, hyphen or upper-case ASCII letter |
| `BaseTool.NormalizeNameFixedPoints` | base_tool.py:45 | normalisation leaves a name unchanged exactly when it is already in normal form |
| `BaseTool.NormalizeNameIdempotent` | base_tool.py:45 | normalising twice is normalising once |
| `BaseTool.NormalizeNameKeepsOthers` | base_tool.py:45 | any other character is kept as it is |
| `BaseTool.SameIdentifier` | base_tool.py:45 | two names normalise to the same identifier exactly when they have the same length and agree character by character up to ASCII case and ' ', '-', '_' |
| `BaseTool.Tool.ModelPostInit` | base_tool.py:38-48 | the name is normalised and both descriptions lowered, in place |
| `BaseTool.Tool.constructor` | base_tool.py:38-48 | a constructed tool holds the normalised name and lowered descriptions |
| `BaseTool.Tool.DescriptionForLLM` | base_tool.py:65-74 | the description starts with "Tool Name: " and the name |
| `BaseTool.DescriptionLines` | base_tool.py:74 | for one-line fields the description is exactly the three labelled lines |
| `BaseTool.DefaultSearchName` | search_tool.py:36 | the default search tool name normalises to "internet_search_tool" |
| `BaseTool.DefaultReportName` | report_tool.py:13 | the default report tool name normalises to "report_writing_tool" |
| `BaseTool.NewInternetSearchTool` | search_tool.py:31-45 | the default search tool registers as "internet_search_tool" with lowered descriptions |
| `BaseTool.NewReportWritingTool` | report_tool.py:8-22 | the default report tool registers as "report_writing_tool" with lowered descriptions and the given client |
| `SearchTool.InternalWebSearch` | search_tool.py:19-29 | the simulated search starts with the header naming the query and ends with the query followed by "..." |
| `SearchTool.SearchRun` | search_tool.py:47-64 | `run` never raises, returns exactly the simulated search of its argument, and starts with the header naming the query |
| `SearchTool.SearchResultLines` | search_tool.py:19-29 | for a one-line query the output is the header and exactly three result lines |
| `SearchTool.ResultLineMentionsQuery` | search_tool.py:29 | each result line contains the query |
| `ReportTool.Report` | report_tool.py:48-65 | the completion content is returned unchanged, and a failing call becomes "Error during report generation: <e>" without raising |
| `ReportTool.ReportRun` | report_tool.py:24-65 | no client gives the fixed no-client message before any argument check; a blank str gives the empty-input message; only a non-empty list raises; a non-blank str asks the model |
| `ReportTool.GuardsMakeNoCall` | report_tool.py:35-39 | when a guard stops the tool, the result does not depend on the model |
| `ReportTool.BlankArgumentRefused` | report_tool.py:38-39 | a whitespace-only argument is refused with the empty-input message |
| `PyText.Strip` | gui.py:152 | `strip` never lengthens the text, and what it keeps neither starts nor ends with whitespace |
| `PyText.StripIsTrimmedSlice` | gui.py:152 | `strip` removes only whitespace, from both ends, and keeps a contiguous slice of the text |
| `PyText.StripIdempotent` | gui.py:152 | stripping twice is stripping once |
| `PyText.BlankStripsToEmpty` | report_tool.py:38 | a whitespace-only string strips to the empty string |
| `PyText.Lower` | base_tool.py:45-48 | `lower` keeps the length and lowers each ASCII letter |
| `PyText.ReplaceChar` | base_tool.py:45 | `replace` of one character keeps the length and substitutes exactly that character |
| `PyText.Split` | gui.py:151 | `split('\n')` gives one more piece than there are newlines, none holding a newline, and joining them back gives the text |
| `Gui.TextWidget.Insert` | gui.py:178-182 | an insertion appends one `(text, tags)` record |
| `Gui.Layout` | gui.py:152-168 | a line is untagged, a heading or a list item; an untagged line is inserted as it is; a tagged line's text is a suffix of the stripped line |
| `Gui.LayoutCases` | gui.py:152-168 | "## " or "# " headings lose their marker; "- " or "* " list items keep it and are stripped; other lines are kept unstripped |
| `Gui.BoldMatch` | gui.py:173 | a match of the bold pattern lies within the text and spans at least four characters |
| `Gui.BoldMatchIsLeftmostLazy` | gui.py:173 | the match found starts at the leftmost position the pattern matches from, with the shortest span from there; there is none exactly when the pattern matches nowhere |
| `Gui.SplitBold` | gui.py:173 | the split is never empty, and its pieces concatenate back to the line's text |
| `Gui.SplitBoldOdd` | gui.py:173 | the split has an odd number of pieces: text, match, text, …, text |
| `Gui.SplitBoldGaps` | gui.py:173 | no text piece before a match holds "**", so each match is the leftmost one in what is left of the text |
| `Gui.SplitBoldMatches` | gui.py:173 | every captured piece is "**", text without "**", "**" (the lazy match) |
| `Gui.SplitBoldRest` | gui.py:173 | nothing after the last match matches the pattern |
| `Gui.SplitBoldNoNewline` | gui.py:173 | the pieces of a text without a newline hold none |
| `Gui.NoMatchNoSplit` | gui.py:173 | a text the pattern does not match is split into itself alone |
| `Gui.SegmentInsertions` | gui.py:175-180 | a line's pieces give at most one insertion each, and none with an empty text |
| `Gui.LineInsertions` | gui.py:151-182 | a line's insertions end with one bare newline, and none has an empty text |
| `Gui.InsertLine` | gui.py:152-182 | one line inserts its segments and then one newline |
| `Gui.InsertFormattedText` | gui.py:144-182 | the widget gains exactly the insertions of the lines of `text.split('\n')`, in order |
| `Gui.InsertedNewlines` | gui.py:151-182 | the number of newlines inserted is the number in the text plus one |
| `Gui.FormattedNewlines` | gui.py:151-182 | each line ends with exactly one newline insertion and nothing else inserted holds a newline |
| `Gui.Formatted` | gui.py:151-182 | the text gives at least one insertion per line, and no empty text is ever inserted |
| `Gui.PlainLine` | gui.py:151-182 | a line the bold pattern does not match inserts its text, when non-empty, with the line's tags, then the newline |
| `Gui.PlainTextUnchanged` | gui.py:151-180 | a plain line the bold pattern does not match is inserted unchanged and unstripped |
| `Gui.BoldSpanMatches` | gui.py:173-176 | a piece that starts and ends with "**" around something contains a match of the pattern |
| `Gui.BoldSpanInserted` | gui.py:175-178 | every bold span among the pieces goes in without its markers and with "bold" added to the line's tags, between the insertions of the pieces before and after it |
| `Gui.BoldInLine` | gui.py:151-182 | each bold span of a line is inserted unmarked, with the line's heading or list tag and "bold" |
| `Gui.WholeMatch` | gui.py:173-180 | a text that is one match from end to end is split into itself between two empty pieces and goes in as a single insertion |
| `Gui.BoldText` | gui.py:173-178 | "**" + w + "**", for any non-empty w without "**" that does not end in '*', is one match, and w is inserted with "bold" added to the tags |
| `Gui.FourStarsLiteral` | gui.py:176-180 | "****" is inserted literally, not as bold |

## Left out

- The chat-completion calls (agent.py:136-142, report_tool.py:49-58) are an oracle on the message list. The model name, temperature, `max_tokens` and `response_format` are not modelled. A reply whose content is None is not modelled.
- `json.loads` is an abstract partial function, not a JSON grammar. Decoded numbers are integers, so floats are not modelled.
- `PyJson.Lookup`: decoded objects are taken to have distinct keys. For a text with a repeated key, `json.loads` keeps the last value, while `Lookup` returns the first entry.
- Client construction and reading of the API key (base_tool.py:15-19, base_tool.py:83-94, config.py) are foreign calls and configuration. Whether a client is present is a boolean or a null reference.
- `LLMTool.model_post_init` is modelled only for its call to the base normalisation. Its client handling is not modelled.
- The agent's own `name`, `description` and `arg_description` fields (agent.py:50-58) are not modelled. `run` never reads them.
- The default `max_iterations=5` of `ReActAgent.__init__` is not a separate constant: every construction passes the value.
- All `print` logging is left out. The `argument[:100]` slices are kept because they can raise.
- `thought = action_data.get('thought', ...)` is left out. On the dict it is applied to, it cannot raise and does not change control flow.
- Python passes the `messages` list to the client by reference and keeps appending to it. The model records a copy of each request. The call returns before the list changes, so nothing observable is lost.
- PyText.Lower: lowers ASCII letters only; Python's Unicode case mapping is not modelled.
- PyJson.Repr: `str.isprintable` is exact only up to U+00FF, so `repr` of strings holding other non-printable characters can differ.
- The rest of gui.py (Tk widgets, styling, the worker thread, `queue.Queue` polling) is UI and concurrency. main.py is a bootstrap script.
