/**
 * The ReAct agent (agent.py): a registry of tools keyed by name, and a loop
 * that asks the model for a step, appends its reply to the conversation,
 * decodes the action from the reply and either stops with a final answer or
 * runs a tool and appends what it returned as an observation. Every failure
 * inside a step is turned into an observation; the loop gives up after
 * `maxIterations` model calls.
 */
module Agent {
  import opened Interfaces
  import opened PyText
  import opened PyJson
  import opened ActionParser
  import opened BaseTool
  import SearchTool

  const NoClientError := "Agent requires an OpenAI client. Check API key."
  const NoClientResult := "Error: Agent cannot run without an OpenAI client."
  const MaxIterationsResult := "Error: Agent reached maximum iterations without providing a final answer."
  const FinalAnswer := "final_answer"
  /** How far `argument[:100]` reaches. */
  const ArgumentPreview := 100

  const ObservationPrefix := "Observation: "
  const CorrectiveObservation := ObservationPrefix + "Your previous response was not in the expected JSON format. Please think step-by-step and provide your reasoning and action in the specified JSON structure."

  /** The system prompt before and after the tool descriptions. */
  const PromptHead :=
    "\n"
    + "You are a helpful research assistant operating in a ReAct (Reasoning + Acting) loop.\n"
    + "Your goal is to complete the user's task by breaking it down into steps.\n"
    + "At each step, you must first **Reason** about the current situation and the overall goal.\n"
    + "Then, based on your reasoning, you must decide on an **Action**. \n"
    + "\n"
    + "Available Actions:\n"
    + "1.  Choose one of the available tools to gather information or process data.\n"
    + "2.  Conclude the task if you have enough information and have fulfilled the user's request.\n"
    + "\n"
    + "Available Tools:\n"
  const PromptTail :=
    "\n"
    + "\n"
    + "Output Format:\n"
    + "You MUST structure your response as a JSON block like this:\n"
    + "```json\n"
    + "{\n"
    + "  \"thought\": \"<Your step-by-step reasoning process here. Explain why you are choosing a specific action.>\",\n"
    + "  \"action\": {\n"
    + "    \"tool_name\": \"<Name of the tool to use (e.g., internet_search_tool) OR 'final_answer'>\",\n"
    + "    \"argument\": \"<The argument to pass to the tool, OR the final answer/report if action is 'final_answer'>\"\n"
    + "  }\n"
    + "}\n"
    + "```\n"
    + "\n"
    + "- If you choose a tool, provide its exact name in `tool_name` and the necessary input in `argument`.\n"
    + "- If you believe the task is complete, set `tool_name` to `final_answer` and provide the final response in `argument`.\n"
    + "- Do NOT just provide the final answer directly without the JSON structure.\n"
    + "- Stick to the available tools. Do not invent tools.\n"
    + "Begin!\n"

  predicate Distinct<T(==)>(s: seq<T>) {
    forall i, j :: 0 <= i < j < |s| ==> s[i] != s[j]
  }

  /** `{key: value for (key, value) in entries}`: a later entry for a key
    * overwrites an earlier one. */
  function DictFrom<K, V>(entries: seq<(K, V)>): map<K, V> {
    if entries == [] then map[]
    else DictFrom(entries[..|entries| - 1])[entries[|entries| - 1].0 := entries[|entries| - 1].1]
  }

  /** The order in which a dict built from `entries` lists its keys: each key
    * where it was first inserted (overwriting keeps the position). */
  function KeyOrder<K(==), V>(entries: seq<(K, V)>): seq<K> {
    if entries == [] then []
    else
      var front := KeyOrder(entries[..|entries| - 1]);
      var key := entries[|entries| - 1].0;
      if key in front then front else front + [key]
  }

  /** A key is in the dict exactly when some entry has it. */
  lemma {:induction false} DictFromKeys<K, V>(entries: seq<(K, V)>, key: K)
    ensures key in DictFrom(entries) <==> exists j :: 0 <= j < |entries| && entries[j].0 == key
  {
    if entries != [] {
      var n := |entries| - 1;
      DictFromKeys(entries[..n], key);
      if key in DictFrom(entries[..n]) {
        var j :| 0 <= j < n && entries[..n][j].0 == key;
        assert entries[j].0 == key;
      }
      if exists j :: 0 <= j < |entries| && entries[j].0 == key {
        var j :| 0 <= j < |entries| && entries[j].0 == key;
        if j < n {
          assert entries[..n][j].0 == key;
        }
      }
    }
  }

  /** The value stored for a key is the one of its last entry. */
  lemma {:induction false} DictFromLastWins<K, V>(entries: seq<(K, V)>, j: nat)
    requires j < |entries|
    requires forall j' :: j < j' < |entries| ==> entries[j'].0 != entries[j].0
    ensures entries[j].0 in DictFrom(entries) && DictFrom(entries)[entries[j].0] == entries[j].1
  {
    var n := |entries| - 1;
    if j < n {
      DictFromLastWins(entries[..n], j);
    }
  }

  /** Every stored pair is one of the entries. */
  lemma {:induction false} DictFromValues<K, V>(entries: seq<(K, V)>, key: K)
    requires key in DictFrom(entries)
    ensures (key, DictFrom(entries)[key]) in entries
  {
    var n := |entries| - 1;
    if entries[n].0 != key {
      DictFromValues(entries[..n], key);
      assert entries[..n] <= entries;
    }
  }

  /** The key order lists every key of the dict once. */
  lemma {:induction false} KeyOrderListsKeys<K, V>(entries: seq<(K, V)>)
    ensures Distinct(KeyOrder(entries))
    ensures forall key :: key in KeyOrder(entries) <==> key in DictFrom(entries)
  {
    if entries != [] {
      KeyOrderListsKeys(entries[..|entries| - 1]);
    }
  }

  /** The pairs `(tool.name, tool)` the registry is built from. */
  function NamedEntries(toolList: seq<Tool>): (r: seq<(string, Tool)>)
    reads set t | t in toolList
    ensures |r| == |toolList|
    ensures forall k :: 0 <= k < |toolList| ==> r[k] == (toolList[k].name, toolList[k])
  {
    if toolList == [] then []
    else NamedEntries(toolList[..|toolList| - 1]) + [(toolList[|toolList| - 1].name, toolList[|toolList| - 1])]
  }

  lemma RegistryStart(toolList: seq<Tool>)
    ensures DictFrom(NamedEntries(toolList[..0])) == map[] && KeyOrder(NamedEntries(toolList[..0])) == []
  {
    assert toolList[..0] == [];
  }

  /** Adding the `i`-th tool to the registry built from the ones before it. */
  lemma RegistryStep(toolList: seq<Tool>, i: nat)
    requires i < |toolList|
    ensures var before, tool := NamedEntries(toolList[..i]), toolList[i];
      && DictFrom(NamedEntries(toolList[..i + 1])) == DictFrom(before)[tool.name := tool]
      && KeyOrder(NamedEntries(toolList[..i + 1]))
         == if tool.name in DictFrom(before) then KeyOrder(before) else KeyOrder(before) + [tool.name]
  {
    assert toolList[..i + 1][..i] == toolList[..i];
    var entries := NamedEntries(toolList[..i + 1]);
    assert entries[..|entries| - 1] == NamedEntries(toolList[..i]);
    KeyOrderListsKeys(NamedEntries(toolList[..i]));
  }

  /** Each registered tool is stored under its own name. */
  lemma RegistryKeysAreNames(toolList: seq<Tool>, key: string)
    requires key in DictFrom(NamedEntries(toolList))
    ensures DictFrom(NamedEntries(toolList))[key].name == key
  {
    DictFromValues(NamedEntries(toolList), key);
  }

  /** Of several tools with the same name, the registry keeps the last one. */
  lemma RegistryLastWins(toolList: seq<Tool>, j: nat)
    requires j < |toolList|
    requires forall j' :: j < j' < |toolList| ==> toolList[j'].name != toolList[j].name
    ensures toolList[j].name in DictFrom(NamedEntries(toolList))
    ensures DictFrom(NamedEntries(toolList))[toolList[j].name] == toolList[j]
  {
    DictFromLastWins(NamedEntries(toolList), j);
  }

  /** The conversation a run starts from. */
  function Seed(systemPrompt: string, task: string): seq<Message> {
    [Message(System, systemPrompt), Message(User, "The user's task is: " + task)]
  }

  /** A user message reporting an observation. */
  predicate IsObservation(m: Message) {
    m.role == User && StartsWith(m.content, ObservationPrefix)
  }

  /** What the outer `except` appends for an exception `e` raised in a step. */
  function ErrorObservation(e: string): (m: Message)
    ensures IsObservation(m)
    ensures m == Message(User, "Observation: " + "An error occurred in the previous step: " + e + ". Please assess the situation and proceed.")
  {
    Message(User, ObservationPrefix + ("An error occurred in the previous step: " + e + ". Please assess the situation and proceed."))
  }

  /** What a step does with the decoded reply. */
  datatype Decision =
    | Malformed                                   // the validity test failed
    | Fault(error: string)                        // evaluating the action raised
    | Finish(answer: Sliceable)                   // `tool_name == "final_answer"`
    | Call(toolName: Json, argument: Sliceable)   // any other tool name

  /** The action's tool name, when the reply is a dict whose "action" is a dict
    * that has one. */
  function ActionField(data: Json, key: string): Option<Json> {
    if data.JObj? then
      match Lookup(data.entries, "action")
      case Some(action) => if action.JObj? then Lookup(action.entries, key) else None
      case None => None
    else None
  }

  /** The validity test, the `get`s of the tool name and the argument, the
    * slice `argument[:100]` and the `final_answer` test, in the order the
    * step evaluates them. A tool is only called, or the run only finished,
    * when the reply is a dict whose "action" is a dict with a "tool_name" and
    * a str or list "argument". */
  function Decide(actionData: Option<Json>): (d: Decision)
    ensures (d.Finish? || d.Call?) ==>
      actionData.Some? && ActionField(actionData.value, "argument") == Some(if d.Finish? then d.answer else d.argument)
    ensures d.Finish? ==> ActionField(actionData.value, "tool_name") == Some(JStr(FinalAnswer))
    ensures d.Call? ==> ActionField(actionData.value, "tool_name") == Some(d.toolName) && d.toolName != JStr(FinalAnswer)
  {
    if actionData.None? || !Truthy(actionData.value) then Malformed
    else
      var data := actionData.value;
      match Contains(data, "action")
      case Raise(e) => Fault(e)
      case Ok(hasAction) =>
        if !hasAction then Malformed
        else match Subscript(data, "action")
        case Raise(e) => Fault(e)
        case Ok(action) =>
          match Contains(action, "tool_name")
          case Raise(e) => Fault(e)
          case Ok(hasToolName) =>
            if !hasToolName then Malformed
            else match GetMethod(action, "tool_name")
            case Raise(e) => Fault(e)
            case Ok(toolName) =>
              var argument := GetMethod(action, "argument").value;
              match SlicePrefix(argument, ArgumentPreview)
              case Raise(e) => Fault(e)
              case Ok(_) => if toolName == JStr(FinalAnswer) then Finish(argument) else Call(toolName, argument)
  }

  /** A dict whose "action" is a dict with a "tool_name" and a str or list
    * "argument" decides a final answer when the name is "final_answer" and a
    * tool call otherwise; with `Decide`'s own contract, these are the only
    * replies that finish the run or run a tool. */
  lemma DecideWellFormedAction(data: Json, name: Json, argument: Sliceable)
    requires ActionField(data, "tool_name") == Some(name)
    requires ActionField(data, "argument") == Some(argument)
    ensures Decide(Some(data)) == if name == JStr(FinalAnswer) then Finish(argument) else Call(name, argument)
  {
    hide Contains, Subscript, GetMethod, SlicePrefix, TypeName, Lookup, Keys;
    var action := Lookup(data.entries, "action").value;
    assert "action" in Keys(data.entries);
    assert Truthy(data);
    assert Contains(data, "action") == Ok(true);
    assert Subscript(data, "action") == Ok(action);
    assert "tool_name" in Keys(action.entries);
    assert Contains(action, "tool_name") == Ok(true);
    assert GetMethod(action, "tool_name") == Ok(name);
    assert "argument" in Keys(action.entries);
    assert GetMethod(action, "argument") == Ok(argument);
    assert SlicePrefix(argument, ArgumentPreview).Ok?;
  }

  /** A missing (or null) argument fails the preview slice `argument[:100]`,
    * which comes before the `final_answer` test: even a final answer without
    * an argument becomes an error observation. */
  lemma DecideMissingArgument(data: Json)
    requires ActionField(data, "tool_name").Some?
    requires ActionField(data, "argument").None? || ActionField(data, "argument") == Some(JNull)
    ensures Decide(Some(data)) == Fault(NotSubscriptable("NoneType"))
  {
    hide Contains, Subscript, GetMethod, SlicePrefix, TypeName;
    var action := Lookup(data.entries, "action").value;
    assert "action" in Keys(data.entries);
    assert "tool_name" in Keys(action.entries);
    assert GetMethod(action, "argument") == Ok(JNull);
    NoneNotSubscriptable();
  }

  lemma NoneNotSubscriptable()
    ensures SlicePrefix(JNull, ArgumentPreview) == Raise(NotSubscriptable("NoneType"))
  {
  }

  /** Nothing decoded, a false value, a dict without "action", or an action
    * dict without "tool_name": the reply is reported as malformed. */
  lemma DecideMalformed(actionData: Option<Json>)
    requires || actionData.None?
             || !Truthy(actionData.value)
             || (actionData.value.JObj? && "action" !in Keys(actionData.value.entries))
             || (actionData.value.JObj? && "action" in Keys(actionData.value.entries)
                 && ActionField(actionData.value, "tool_name").None?
                 && Lookup(actionData.value.entries, "action").value.JObj?)
    ensures Decide(actionData) == Malformed
  {
    if actionData.Some? && Truthy(actionData.value) && actionData.value.JObj? && "action" in Keys(actionData.value.entries) {
      var action := Lookup(actionData.value.entries, "action").value;
      assert "tool_name" !in Keys(action.entries);
    }
  }

  /** A true bool or a non-zero number has no `in`: the validity test itself
    * raises. */
  lemma DecideScalar(data: Json)
    requires Truthy(data) && (data.JBool? || data.JNum?)
    ensures Decide(Some(data)) == Fault("argument of type '" + TypeName(data) + "' is not iterable")
  {
  }

  /** A str or list reply never finishes the run and never runs a tool: it
    * is a fault (`action_data['action']` raises) exactly when "action" is in
    * it, and malformed otherwise. */
  lemma DecideSequenceReply(data: Json)
    requires data.JStr? || data.JArr?
    ensures Decide(Some(data)).Malformed? || Decide(Some(data)).Fault?
    ensures Decide(Some(data)).Fault? <==> Contains(data, "action") == Ok(true)
  {
  }

  /** The model answered `messages` with a reply that decodes to a final
    * answer. */
  predicate Finishes(messages: seq<Message>, llm: Chat, parse: string -> Option<Json>) {
    llm(messages).Content? && Decide(ExtractJsonBlock(parse, llm(messages).text)).Finish?
  }

  /** One pass of the loop: what it appends to the conversation, and whether it
    * finished the run (with the answer) or ran a tool (by name). */
  datatype Step =
    | Finished(answer: Sliceable, added: seq<Message>)
    | Continued(added: seq<Message>, ran: Option<string>)

  /** What a run returns, the conversation it ends with, the message lists the
    * model was sent, the tools that were run, and whether a final answer ended
    * it. */
  datatype Outcome = Outcome(result: Json, transcript: seq<Message>, requests: seq<seq<Message>>, toolRuns: seq<string>, finished: bool)

  function RanList(ran: Option<string>): seq<string> {
    if ran.Some? then [ran.value] else []
  }

  class ReActAgent {
    var client: ChatClient?
    var maxIterations: int
    /** The registry `self.tools`, and the order in which it lists its keys. */
    var tools: map<string, Tool>
    var toolOrder: seq<string>

    /** `toolOrder` lists the registry's keys, once each. */
    predicate Valid()
      reads this
    {
      && Distinct(toolOrder)
      && (forall k :: k in toolOrder ==> k in tools)
      && (forall k :: k in tools ==> k in toolOrder)
    }

    /** `ReActAgent(tools, ...)` up to the client check: the registry maps
      * each tool's name to the tool, a later tool overwriting an earlier one of
      * the same name. */
    constructor (toolList: seq<Tool>, client: ChatClient?, maxIterations: int)
      ensures Valid()
      ensures tools == DictFrom(NamedEntries(toolList)) && toolOrder == KeyOrder(NamedEntries(toolList))
      ensures this.client == client && this.maxIterations == maxIterations
    {
      hide DictFrom, KeyOrder, NamedEntries;
      var registry: map<string, Tool> := map[];
      var order: seq<string> := [];
      RegistryStart(toolList);
      for i := 0 to |toolList|
        invariant registry == DictFrom(NamedEntries(toolList[..i]))
        invariant order == KeyOrder(NamedEntries(toolList[..i]))
      {
        var tool := toolList[i];
        RegistryStep(toolList, i);
        if tool.name !in registry {
          order := order + [tool.name];
        }
        registry := registry[tool.name := tool];
      }
      assert toolList[..|toolList|] == toolList;
      KeyOrderListsKeys(NamedEntries(toolList));
      this.client := client;
      this.maxIterations := maxIterations;
      this.tools := registry;
      this.toolOrder := order;
    }

    /** `range(self.max_iterations)` runs this many times. */
    function Budget(): nat
      reads this
    {
      if maxIterations < 0 then 0 else maxIterations
    }

    /** The tools' descriptions, in registry order. */
    function ToolDescriptions(order: seq<string>): (r: seq<string>)
      requires forall k :: k in order ==> k in tools
      reads this, tools.Values
      ensures |r| == |order|
      ensures forall i :: 0 <= i < |order| ==> r[i] == tools[order[i]].DescriptionForLLM()
    {
      if order == [] then [] else [tools[order[0]].DescriptionForLLM()] + ToolDescriptions(order[1..])
    }

    /** `_get_system_prompt()`. */
    function SystemPrompt(): (r: string)
      requires Valid()
      reads this, tools.Values
      ensures IsInfix(Join("\n\n", ToolDescriptions(toolOrder)), r)
    {
      hide *;
      var listed := Join("\n\n", ToolDescriptions(toolOrder));
      InfixOfMiddle(PromptHead, listed, PromptTail);
      PromptHead + listed + PromptTail
    }

    /** The prompt describes every registered tool. */
    lemma SystemPromptListsTools(key: string)
      requires Valid() && key in tools
      ensures IsInfix(tools[key].DescriptionForLLM(), SystemPrompt())
    {
      var i :| 0 <= i < |toolOrder| && toolOrder[i] == key;
      var parts := ToolDescriptions(toolOrder);
      JoinContainsPart("\n\n", parts, i);
      InfixTransitive(parts[i], Join("\n\n", parts), SystemPrompt());
    }

    /** The observation for a tool name that is not a key of the registry. */
    function NotFound(toolName: Json): (r: string)
      reads this
      ensures StartsWith(r, "Error: Tool '")
      ensures IsInfix(Str(toolName), r)
    {
      var r := "Error: Tool '" + Str(toolName) + "' not found. Available tools are: " + Join(", ", toolOrder);
      InfixOfSurrounding(Str(toolName), "Error: Tool '", Str(toolName), "' not found. Available tools are: " + Join(", ", toolOrder));
      assert r == "Error: Tool '" + Str(toolName) + ("' not found. Available tools are: " + Join(", ", toolOrder));
      r
    }

    /** The registry lookup and the tool call: the observation, or the
      * exception that escapes to the outer handler (an unhashable name). A
      * tool's own exception is caught and reported. */
    function Dispatch(toolName: Json, argument: Sliceable): (r: PyResult<string>)
      reads this, tools.Values
      ensures r.Raise? <==> (toolName.JArr? || toolName.JObj?)
      ensures r.Ok? && !(toolName.JStr? && toolName.s in tools) ==> r.value == NotFound(toolName)
      ensures toolName.JStr? && toolName.s in tools ==>
        r == Ok(match tools[toolName.s].Run(argument)
                case Returned(text) => text
                case Raised(e) => "Error executing tool " + toolName.s + ": " + e)
    {
      match InStrKeyedDict(toolName, tools.Keys)
      case Raise(e) => Raise(e)
      case Ok(found) =>
        if !found then Ok(NotFound(toolName))
        else match tools[toolName.s].Run(argument)
          case Returned(text) => Ok(text)
          case Raised(e) => Ok("Error executing tool " + toolName.s + ": " + e)
    }

    /** The not-found observation names every registered tool. */
    lemma NotFoundListsTools(toolName: Json, key: string)
      requires Valid() && key in tools
      ensures IsInfix(key, NotFound(toolName))
    {
      var i :| 0 <= i < |toolOrder| && toolOrder[i] == key;
      JoinContainsPart(", ", toolOrder, i);
      InfixOfSuffix(key, "Error: Tool '" + Str(toolName) + "' not found. Available tools are: ", Join(", ", toolOrder));
    }

    /** The lookup is exact: when every key is a normalised name, a str name
      * that is not normalised (upper case, a space, a hyphen) is never
      * found, and the pass reports the tool as missing instead of running it. */
    lemma UnnormalizedNameNotFound(name: string, argument: Sliceable)
      requires forall k :: k in tools ==> IsNormalized(k)
      requires !IsNormalized(name)
      ensures Dispatch(JStr(name), argument) == Ok(NotFound(JStr(name)))
    {
      hide NotFound;
      assert name !in tools;
    }

    /** One pass of the loop body, from the conversation so far. The reply is
      * appended first; every pass that does not finish ends with an
      * observation, whatever went wrong in it. */
    function Iteration(messages: seq<Message>, llm: Chat, parse: string -> Option<Json>): (s: Step)
      reads this, tools.Values
      ensures s.Finished? ==> llm(messages).Content? && s.added == [Message(Assistant, llm(messages).text)]
      ensures s.Continued? ==> 1 <= |s.added| <= 2 && IsObservation(s.added[|s.added| - 1])
      ensures s.Continued? && |s.added| == 2 ==> llm(messages).Content? && s.added[0] == Message(Assistant, llm(messages).text)
      ensures s.Continued? && |s.added| == 1 ==> llm(messages).Failure?
      ensures s.Continued? && s.ran.Some? ==> s.ran.value in tools
    {
      match llm(messages)
      case Failure(e) => Continued([ErrorObservation(e)], None)
      case Content(reply) =>
        var said := Message(Assistant, reply);
        match Decide(ExtractJsonBlock(parse, reply))
        case Malformed => Continued([said, Message(User, CorrectiveObservation)], None)
        case Fault(e) => Continued([said, ErrorObservation(e)], None)
        case Finish(answer) => Finished(answer, [said])
        case Call(toolName, argument) =>
          match Dispatch(toolName, argument)
          case Raise(e) => Continued([said, ErrorObservation(e)], None)
          case Ok(observation) =>
            Continued([said, Message(User, ObservationPrefix + observation)],
                      if toolName.JStr? && toolName.s in tools then Some(toolName.s) else None)
    }

    /** A reply with no valid action gets the corrective observation after
      * it, and no tool runs. */
    lemma IterationMalformed(messages: seq<Message>, llm: Chat, parse: string -> Option<Json>)
      requires llm(messages).Content?
      requires Decide(ExtractJsonBlock(parse, llm(messages).text)).Malformed?
      ensures Iteration(messages, llm, parse)
           == Continued([Message(Assistant, llm(messages).text), Message(User, CorrectiveObservation)], None)
    {
      hide Decide, ExtractJsonBlock, Dispatch, ErrorObservation;
    }

    /** A str tool name that is not a key of the registry gets the not-found
      * observation after the reply, and no tool runs. */
    lemma IterationNotFound(messages: seq<Message>, llm: Chat, parse: string -> Option<Json>)
      requires llm(messages).Content?
      requires var d := Decide(ExtractJsonBlock(parse, llm(messages).text));
        d.Call? && d.toolName.JStr? && d.toolName.s !in tools
      ensures var name := Decide(ExtractJsonBlock(parse, llm(messages).text)).toolName;
        Iteration(messages, llm, parse)
        == Continued([Message(Assistant, llm(messages).text), Message(User, ObservationPrefix + NotFound(name))], None)
    {
      hide Decide, ExtractJsonBlock, ErrorObservation, NotFound, InStrKeyedDict, IsInfix, StartsWith, Str;
      var d := Decide(ExtractJsonBlock(parse, llm(messages).text));
      assert Dispatch(d.toolName, d.argument) == Ok(NotFound(d.toolName));
    }

    /** A registered tool that raises has its error reported after the reply,
      * and the loop goes on. */
    lemma IterationToolRaised(messages: seq<Message>, llm: Chat, parse: string -> Option<Json>)
      requires llm(messages).Content?
      requires var d := Decide(ExtractJsonBlock(parse, llm(messages).text));
        d.Call? && d.toolName.JStr? && d.toolName.s in tools && tools[d.toolName.s].Run(d.argument).Raised?
      ensures var d := Decide(ExtractJsonBlock(parse, llm(messages).text));
        var e := tools[d.toolName.s].Run(d.argument).error;
        Iteration(messages, llm, parse)
        == Continued([Message(Assistant, llm(messages).text),
                      Message(User, ObservationPrefix + ("Error executing tool " + d.toolName.s + ": " + e))],
                     Some(d.toolName.s))
    {
      hide Decide, ExtractJsonBlock, ErrorObservation, NotFound, InStrKeyedDict, IsInfix, StartsWith, Str;
      var d := Decide(ExtractJsonBlock(parse, llm(messages).text));
      var e := tools[d.toolName.s].Run(d.argument).error;
      assert Dispatch(d.toolName, d.argument) == Ok("Error executing tool " + d.toolName.s + ": " + e);
    }

    /** A failed chat request is reported as an error observation, with no
      * assistant message before it, and the loop goes on. */
    lemma IterationTransportFailure(messages: seq<Message>, llm: Chat, parse: string -> Option<Json>)
      requires llm(messages).Failure?
      ensures Iteration(messages, llm, parse) == Continued([ErrorObservation(llm(messages).error)], None)
    {
      hide Decide, ExtractJsonBlock, Dispatch, ErrorObservation;
    }

    /** A reply whose decoded action raises while it is read (a missing
      * "argument", a list indexed by a string, ...) is kept and followed by an
      * error observation; the loop goes on. */
    lemma IterationFault(messages: seq<Message>, llm: Chat, parse: string -> Option<Json>)
      requires llm(messages).Content?
      requires Decide(ExtractJsonBlock(parse, llm(messages).text)).Fault?
      ensures Iteration(messages, llm, parse)
        == Continued([Message(Assistant, llm(messages).text),
                      ErrorObservation(Decide(ExtractJsonBlock(parse, llm(messages).text)).error)],
                     None)
    {
      hide Decide, ExtractJsonBlock, Dispatch, ErrorObservation;
    }

    /** A tool name that cannot be a dict key (a list or an object) raises at
      * the registry lookup; the reply is kept, followed by an error
      * observation, and the loop goes on. */
    lemma IterationDispatchRaised(messages: seq<Message>, llm: Chat, parse: string -> Option<Json>)
      requires llm(messages).Content?
      requires var d := Decide(ExtractJsonBlock(parse, llm(messages).text));
        d.Call? && Dispatch(d.toolName, d.argument).Raise?
      ensures var d := Decide(ExtractJsonBlock(parse, llm(messages).text));
        Iteration(messages, llm, parse)
        == Continued([Message(Assistant, llm(messages).text),
                      ErrorObservation(Dispatch(d.toolName, d.argument).message)],
                     None)
    {
      hide Decide, ExtractJsonBlock, Dispatch, ErrorObservation;
    }

    /** The search tool registered under its normalised name answers a str
      * argument with the simulated search for it. */
    lemma DispatchSearch(query: string)
      requires "internet_search_tool" in tools && tools["internet_search_tool"].kind == InternetSearch
      ensures Dispatch(JStr("internet_search_tool"), JStr(query)) == Ok(SearchTool.InternalWebSearch(query))
    {
    }

    /** The rest of a run with `budget` passes left. */
    function RunFrom(budget: nat, messages: seq<Message>, llm: Chat, parse: string -> Option<Json>): (r: Outcome)
      reads this, tools.Values
      ensures messages <= r.transcript
      ensures |r.requests| <= budget
      ensures !r.finished ==> |r.requests| == budget && r.result == JStr(MaxIterationsResult)
      decreases budget
    {
      if budget == 0 then Outcome(JStr(MaxIterationsResult), messages, [], [], false)
      else match Iteration(messages, llm, parse)
        case Finished(answer, added) => Outcome(answer, messages + added, [messages], [], true)
        case Continued(added, ran) =>
          var rest := RunFrom(budget - 1, messages + added, llm, parse);
          rest.(requests := [messages] + rest.requests, toolRuns := RanList(ran) + rest.toolRuns)
    }

    /** `run(task)`. */
    function RunSpec(task: string, parse: string -> Option<Json>): (r: Outcome)
      requires Valid()
      reads this, tools.Values
      ensures client == null ==> r.result == JStr(NoClientResult) && r.requests == [] && !r.finished
      ensures |r.requests| <= Budget()
      ensures client != null && !r.finished ==> r.result == JStr(MaxIterationsResult)
    {
      hide *;
      if client == null then Outcome(JStr(NoClientResult), [], [], [], false)
      else RunFrom(Budget(), Seed(SystemPrompt(), task), client.reply, parse)
    }

    /** With no pass left the run gives up with the conversation as it is. */
    lemma RunFromExhausted(messages: seq<Message>, llm: Chat, parse: string -> Option<Json>)
      ensures RunFrom(0, messages, llm, parse) == Outcome(JStr(MaxIterationsResult), messages, [], [], false)
    {
    }

    /** One pass taken: a finishing pass ends the run, any other pass leaves
      * the rest of the run to the next budget. */
    lemma RunFromPass(budget: nat, messages: seq<Message>, llm: Chat, parse: string -> Option<Json>)
      requires budget > 0
      ensures Iteration(messages, llm, parse).Finished? ==>
        var s := Iteration(messages, llm, parse);
        RunFrom(budget, messages, llm, parse) == Outcome(s.answer, messages + s.added, [messages], [], true)
      ensures Iteration(messages, llm, parse).Continued? ==>
        var s := Iteration(messages, llm, parse);
        var rest := RunFrom(budget - 1, messages + s.added, llm, parse);
        RunFrom(budget, messages, llm, parse)
          == rest.(requests := [messages] + rest.requests, toolRuns := RanList(s.ran) + rest.toolRuns)
    {
    }

    /** A pass finishes the run exactly when the model answered and its reply
      * decodes to a final answer, which is then the answer. */
    lemma IterationFinishes(messages: seq<Message>, llm: Chat, parse: string -> Option<Json>)
      ensures Iteration(messages, llm, parse).Finished? <==> Finishes(messages, llm, parse)
      ensures Iteration(messages, llm, parse).Finished? ==>
        Decide(ExtractJsonBlock(parse, llm(messages).text)) == Finish(Iteration(messages, llm, parse).answer)
    {
      hide Decide, Dispatch, ExtractJsonBlock, ErrorObservation;
    }

    /** What every run keeps, whatever the model answers: the conversation
      * only grows, each pass adds the reply and/or one observation, each
      * request is the conversation as it stood (a prefix of the final one),
      * there is at most one request per pass, a run that does not finish has
      * used every pass and reports running out of them, and only registered
      * tools are run. */
    lemma {:induction false} RunFromKeeps(budget: nat, messages: seq<Message>, llm: Chat, parse: string -> Option<Json>)
      ensures var o := RunFrom(budget, messages, llm, parse);
        && messages <= o.transcript
        && (forall k :: |messages| <= k < |o.transcript| ==> o.transcript[k].role == Assistant || IsObservation(o.transcript[k]))
        && |o.requests| <= |o.transcript| - |messages| <= 2 * |o.requests|
        && |o.requests| <= budget
        && (budget > 0 ==> |o.requests| > 0 && o.requests[0] == messages)
        && (forall k :: 0 <= k < |o.requests| ==> o.requests[k] <= o.transcript)
        && (!o.finished ==> |o.requests| == budget && o.result == JStr(MaxIterationsResult))
        && |o.toolRuns| <= |o.requests|
        && (forall name :: name in o.toolRuns ==> name in tools)
    {
      hide Iteration, RunFrom;
      var o := RunFrom(budget, messages, llm, parse);
      if budget == 0 {
        RunFromExhausted(messages, llm, parse);
      } else {
        RunFromPass(budget, messages, llm, parse);
        var s := Iteration(messages, llm, parse);
        if s.Continued? {
          var rest := RunFrom(budget - 1, messages + s.added, llm, parse);
          RunFromKeeps(budget - 1, messages + s.added, llm, parse);
          assert o.transcript == rest.transcript;
          forall k | |messages| <= k < |o.transcript|
            ensures o.transcript[k].role == Assistant || IsObservation(o.transcript[k])
          {
            if k < |messages + s.added| {
              assert o.transcript[k] == s.added[k - |messages|];
            }
          }
          forall k | 0 <= k < |o.requests|
            ensures o.requests[k] <= o.transcript
          {
            if k > 0 {
              assert o.requests[k] == rest.requests[k - 1];
            }
          }
        }
      }
    }

    /** The run stops at the first reply that decodes to a final answer: no
      * earlier request got one, a finished run's last request did, and its
      * answer is the run's result; an unfinished run never got one. */
    lemma {:induction false} RunFromStopsAtFinalAnswer(budget: nat, messages: seq<Message>, llm: Chat, parse: string -> Option<Json>)
      ensures var o := RunFrom(budget, messages, llm, parse);
        forall k :: 0 <= k < |o.requests| ==>
          (Finishes(o.requests[k], llm, parse) <==> o.finished && k == |o.requests| - 1)
      ensures var o := RunFrom(budget, messages, llm, parse);
        o.finished ==>
          && |o.requests| > 0
          && llm(o.requests[|o.requests| - 1]).Content?
          && Decide(ExtractJsonBlock(parse, llm(o.requests[|o.requests| - 1]).text)).Finish?
          && Decide(ExtractJsonBlock(parse, llm(o.requests[|o.requests| - 1]).text)).answer == o.result
          && o.transcript == o.requests[|o.requests| - 1] + [Message(Assistant, llm(o.requests[|o.requests| - 1]).text)]
    {
      hide *;
      var o := RunFrom(budget, messages, llm, parse);
      if budget == 0 {
        RunFromExhausted(messages, llm, parse);
      } else {
        RunFromPass(budget, messages, llm, parse);
        IterationFinishes(messages, llm, parse);
        var s := Iteration(messages, llm, parse);
        if s.Continued? {
          var rest := RunFrom(budget - 1, messages + s.added, llm, parse);
          RunFromStopsAtFinalAnswer(budget - 1, messages + s.added, llm, parse);
          forall k | 0 <= k < |o.requests|
            ensures Finishes(o.requests[k], llm, parse) <==> o.finished && k == |o.requests| - 1
          {
            if k > 0 {
              assert o.requests[k] == rest.requests[k - 1];
            }
          }
          if o.finished {
            assert o.requests[|o.requests| - 1] == rest.requests[|rest.requests| - 1];
          }
        }
      }
    }

    /** The body of the loop: one request to the client, and what the pass
      * appends to the conversation. */
    method Pass(messages: seq<Message>, llm: ChatClient, parse: string -> Option<Json>) returns (step: Step)
      modifies llm
      ensures step == Iteration(messages, llm.reply, parse)
      ensures llm.requests == old(llm.requests) + [messages]
    {
      hide Decide, Dispatch, ExtractJsonBlock, ErrorObservation;
      var completion := llm.Create(messages);
      match completion {
        case Failure(e) =>
          step := Continued([ErrorObservation(e)], None);
        case Content(reply) =>
          var said := Message(Assistant, reply);
          match Decide(ExtractJsonBlock(parse, reply)) {
            case Malformed =>
              step := Continued([said, Message(User, CorrectiveObservation)], None);
            case Fault(e) =>
              step := Continued([said, ErrorObservation(e)], None);
            case Finish(answer) =>
              step := Finished(answer, [said]);
            case Call(toolName, argument) =>
              var ran := if toolName.JStr? && toolName.s in tools then Some(toolName.s) else None;
              match Dispatch(toolName, argument) {
                case Raise(e) =>
                  step := Continued([said, ErrorObservation(e)], None);
                case Ok(observation) =>
                  step := Continued([said, Message(User, ObservationPrefix + observation)], ran);
              }
          }
      }
    }

    /** The `for` loop of `run`, from the conversation `start`: it appends to
      * `messages` in place and asks the client once per pass. */
    method Loop(start: seq<Message>, llm: ChatClient, parse: string -> Option<Json>) returns (result: Json, messages: seq<Message>)
      modifies llm
      ensures result == RunFrom(Budget(), start, llm.reply, parse).result
      ensures messages == RunFrom(Budget(), start, llm.reply, parse).transcript
      ensures llm.requests == old(llm.requests) + RunFrom(Budget(), start, llm.reply, parse).requests
    {
      hide *;
      messages := start;
      var i := 0;
      while i < Budget()
        invariant 0 <= i <= Budget()
        invariant RunFrom(Budget() - i, messages, llm.reply, parse).result == RunFrom(Budget(), start, llm.reply, parse).result
        invariant RunFrom(Budget() - i, messages, llm.reply, parse).transcript == RunFrom(Budget(), start, llm.reply, parse).transcript
        invariant llm.requests + RunFrom(Budget() - i, messages, llm.reply, parse).requests
               == old(llm.requests) + RunFrom(Budget(), start, llm.reply, parse).requests
      {
        ghost var before := llm.requests;
        RunFromPass(Budget() - i, messages, llm.reply, parse);
        var step := Pass(messages, llm, parse);
        match step {
          case Finished(answer, added) =>
            return answer, messages + added;
          case Continued(added, _) =>
            assert llm.requests == before + [messages];
            messages := messages + added;
        }
        i := i + 1;
      }
      RunFromExhausted(messages, llm.reply, parse);
      result := JStr(MaxIterationsResult);
    }

    /** `run(task)`: it returns what `RunSpec` describes, and the client has
      * been sent exactly the requests `RunSpec` lists. */
    method Run(task: string, parse: string -> Option<Json>) returns (result: Json, messages: seq<Message>)
      requires Valid()
      modifies client
      ensures result == RunSpec(task, parse).result && messages == RunSpec(task, parse).transcript
      ensures client != null ==> client.requests == old(client.requests) + RunSpec(task, parse).requests
    {
      hide *;
      RunSpecCases(task, parse);
      if client == null {
        return JStr(NoClientResult), [];
      }
      var systemPrompt := SystemPrompt();
      result, messages := Loop(Seed(systemPrompt, task), client, parse);
    }

    /** Without a client the run refuses at once and asks nothing; with one,
      * the conversation starts from the system prompt and the task, which is
      * also the first request, and there are at most `maxIterations`
      * requests. */
    lemma RunSpecStart(task: string, parse: string -> Option<Json>)
      requires Valid()
      ensures client == null ==> RunSpec(task, parse) == Outcome(JStr(NoClientResult), [], [], [], false)
      ensures client != null ==>
        var o := RunSpec(task, parse);
        && Seed(SystemPrompt(), task) <= o.transcript
        && |o.requests| <= Budget()
        && (Budget() > 0 ==> |o.requests| > 0 && o.requests[0] == Seed(SystemPrompt(), task))
    {
      hide *;
      RunSpecCases(task, parse);
      if client != null {
        RunFromKeeps(Budget(), Seed(SystemPrompt(), task), client.reply, parse);
      }
    }

    /** The two ways `RunSpec` begins. */
    lemma RunSpecCases(task: string, parse: string -> Option<Json>)
      requires Valid()
      ensures client == null ==> RunSpec(task, parse) == Outcome(JStr(NoClientResult), [], [], [], false)
      ensures client != null ==> RunSpec(task, parse) == RunFrom(Budget(), Seed(SystemPrompt(), task), client.reply, parse)
    {
    }
  }

  /** `ReActAgent(tools, ...)`: a ValueError when there is no client. */
  method NewAgent(toolList: seq<Tool>, client: ChatClient?, maxIterations: int) returns (r: PyResult<ReActAgent>)
    ensures r.Raise? <==> client == null
    ensures r.Raise? ==> r.message == NoClientError
    ensures r.Ok? ==> fresh(r.value) && r.value.Valid() && r.value.client == client
    ensures r.Ok? ==> r.value.tools == DictFrom(NamedEntries(toolList)) && r.value.maxIterations == maxIterations
    ensures r.Ok? ==> r.value.toolOrder == KeyOrder(NamedEntries(toolList))
  {
    var agent := new ReActAgent(toolList, client, maxIterations);
    if client == null {
      return Raise(NoClientError);
    }
    return Ok(agent);
  }
}
