/**
 * The tool base class (base_tool.py): every tool carries a name, a
 * description and an argument description, which a post-initialisation hook
 * rewrites in place (the name to a snake_case identifier, the descriptions to
 * lower case), and renders them for the agent's system prompt. The concrete
 * tools are told apart by `kind`; a `Custom` tool stands for any other tool,
 * given by what its `run` returns or raises.
 */
module BaseTool {
  import opened Interfaces
  import opened PyText
  import opened PyJson
  import SearchTool
  import ReportTool

  /** One character of `name.lower().replace(' ', '_').replace('-', '_')`. */
  function NormalizeChar(c: char): char {
    var l := LowerChar(c);
    if l == ' ' || l == '-' then '_' else l
  }

  /** `name.lower().replace(' ', '_').replace('-', '_')`, in that order. The
    * three passes act character by character: the length is kept and each
    * character is lowered, then a space or hyphen becomes '_'. */
  function NormalizeName(name: string): (r: string)
    ensures |r| == |name|
    ensures forall k :: 0 <= k < |name| ==> r[k] == NormalizeChar(name[k])
  {
    ReplaceChar(ReplaceChar(Lower(name), ' ', '_'), '-', '_')
  }

  /** A name is in normal form: no space, no hyphen, no upper-case ASCII
    * letter. */
  predicate IsNormalized(name: string) {
    forall k :: 0 <= k < |name| ==> name[k] != ' ' && name[k] != '-' && !('A' <= name[k] <= 'Z')
  }

  /** Every normalised name is in normal form. */
  lemma NormalizeNameIsNormalized(name: string)
    ensures IsNormalized(NormalizeName(name))
  {
  }

  /** Normalising leaves a name unchanged exactly when it is in normal form. */
  lemma NormalizeNameFixedPoints(name: string)
    ensures NormalizeName(name) == name <==> IsNormalized(name)
  {
    NormalizeNameIsNormalized(name);
  }

  /** Normalising twice is normalising once. */
  lemma NormalizeNameIdempotent(name: string)
    ensures NormalizeName(NormalizeName(name)) == NormalizeName(name)
  {
    NormalizeNameIsNormalized(name);
    NormalizeNameFixedPoints(NormalizeName(name));
  }

  /** Any character other than an upper-case ASCII letter, a space or a
    * hyphen is kept as it is. */
  lemma NormalizeNameKeepsOthers(name: string, k: nat)
    requires k < |name| && name[k] != ' ' && name[k] != '-' && !('A' <= name[k] <= 'Z')
    ensures NormalizeName(name)[k] == name[k]
  {
  }

  /** Two names are the same identifier exactly when they have the same
    * length and agree character by character up to ASCII case and up to
    * ' ', '-' and '_'. */
  lemma SameIdentifier(a: string, b: string)
    ensures NormalizeName(a) == NormalizeName(b)
      <==> |a| == |b| && forall k :: 0 <= k < |a| ==> NormalizeChar(a[k]) == NormalizeChar(b[k])
  {
    if NormalizeName(a) == NormalizeName(b) {
      forall k | 0 <= k < |a| ensures NormalizeChar(a[k]) == NormalizeChar(b[k]) {
        assert NormalizeName(a)[k] == NormalizeName(b)[k];
      }
    }
  }

  /** The default search tool registers as "internet_search_tool". */
  lemma DefaultSearchName()
    ensures NormalizeName(SearchTool.DefaultName) == "internet_search_tool"
  {
    SearchNameNormalizes(SearchTool.DefaultName);
  }

  lemma SearchNameNormalizes(name: string)
    requires name == "Internet Search Tool"
    ensures NormalizeName(name) == "internet_search_tool"
  {
  }

  /** The default report tool registers as "report_writing_tool". */
  lemma DefaultReportName()
    ensures NormalizeName(ReportTool.DefaultName) == "report_writing_tool"
  {
    ReportNameNormalizes(ReportTool.DefaultName);
  }

  lemma ReportNameNormalizes(name: string)
    requires name == "Report Writing Tool"
    ensures NormalizeName(name) == "report_writing_tool"
  {
  }

  /** What a tool's `run` does. */
  datatype ToolKind =
    | InternetSearch
    | ReportWriting(chat: Chat)
    | Custom(run: Sliceable -> ToolOutcome)

  class Tool {
    var name: string
    var description: string
    var argDescription: string
    /** Whether the tool holds a completion client (used by LLM-backed tools). */
    var hasClient: bool
    const kind: ToolKind

    /** Field initialisation followed by `model_post_init`. */
    constructor (name: string, description: string, argDescription: string, kind: ToolKind, hasClient: bool)
      ensures this.name == NormalizeName(name)
      ensures this.description == Lower(description)
      ensures this.argDescription == Lower(argDescription)
      ensures this.kind == kind && this.hasClient == hasClient
    {
      this.name := name;
      this.description := description;
      this.argDescription := argDescription;
      this.kind := kind;
      this.hasClient := hasClient;
      new;
      ModelPostInit();
    }

    /** `Tool.model_post_init`: normalise the name and lower the two
      * descriptions, in place. `LLMTool.model_post_init` runs this first and
      * then only deals with the client. */
    method ModelPostInit()
      modifies this
      ensures name == NormalizeName(old(name))
      ensures description == Lower(old(description))
      ensures argDescription == Lower(old(argDescription))
      ensures hasClient == old(hasClient)
    {
      name := NormalizeName(name);
      description := Lower(description);
      argDescription := Lower(argDescription);
    }

    /** `get_tool_description_for_llm()`: three labelled lines. */
    function DescriptionForLLM(): (r: string)
      reads this
      ensures StartsWith(r, "Tool Name: " + name)
    {
      "Tool Name: " + name + "\nDescription: " + description + "\nArgument: " + argDescription
    }

    /** `run(argument)` of the concrete tool. */
    function Run(argument: Sliceable): ToolOutcome
      reads this
    {
      match kind
      case InternetSearch => SearchTool.SearchRun(argument)
      case ReportWriting(chat) => ReportTool.ReportRun(hasClient, chat, argument)
      case Custom(run) => run(argument)
    }
  }

  /** When the three fields are single lines, the description is exactly the
    * three lines "Tool Name: ...", "Description: ..." and "Argument: ...",
    * so each field can be read back from it. */
  lemma DescriptionLines(t: Tool)
    requires '\n' !in t.name && '\n' !in t.description && '\n' !in t.argDescription
    ensures Split(t.DescriptionForLLM(), '\n')
         == ["Tool Name: " + t.name, "Description: " + t.description, "Argument: " + t.argDescription]
  {
    var l1, l2, l3 := "Tool Name: " + t.name, "Description: " + t.description, "Argument: " + t.argDescription;
    assert t.DescriptionForLLM() == l1 + ['\n'] + (l2 + ['\n'] + l3);
    SplitWithoutSeparator(l3, '\n');
    SplitAfterPiece(l2, '\n', l3);
    SplitAfterPiece(l1, '\n', l2 + ['\n'] + l3);
  }

  /** `InternetSearchTool()` with its default fields. */
  method NewInternetSearchTool() returns (t: Tool)
    ensures fresh(t)
    ensures t.name == "internet_search_tool" && t.kind == InternetSearch
    ensures t.description == Lower(SearchTool.DefaultDescription)
    ensures t.argDescription == Lower(SearchTool.DefaultArgDescription)
  {
    hide NormalizeName, Lower;
    t := new Tool(SearchTool.DefaultName, SearchTool.DefaultDescription, SearchTool.DefaultArgDescription, InternetSearch, false);
    DefaultSearchName();
  }

  /** `ReportWritingTool()` with its default fields and the given client. */
  method NewReportWritingTool(hasClient: bool, chat: Chat) returns (t: Tool)
    ensures fresh(t)
    ensures t.name == "report_writing_tool"
    ensures t.kind == ReportWriting(chat) && t.hasClient == hasClient
    ensures t.description == Lower(ReportTool.DefaultDescription)
    ensures t.argDescription == Lower(ReportTool.DefaultArgDescription)
  {
    hide NormalizeName, Lower;
    t := new Tool(ReportTool.DefaultName, ReportTool.DefaultDescription, ReportTool.DefaultArgDescription, ReportWriting(chat), hasClient);
    DefaultReportName();
  }
}
