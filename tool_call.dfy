/**
 * The `tools/list` catalog and the `tools/call` handler: validate the
 * arguments for the named tool, run its handler, and fold every failure into
 * the one text-content envelope the protocol returns.
 *
 * The argument validators (zod schemas) and the three handlers are
 * collaborators, passed in as functions; the request arguments are opaque
 * (`A`), and so is the remote document a handler returns (`D`).
 */
module ToolCall {
  import opened Options
  import opened Strings
  import opened JinaClient

  /** One element of a validation issue's path: an object key or an array index. */
  datatype PathSegment = Key(name: string) | Index(i: nat)

  /** One validation issue: where in the arguments it is, and what is wrong. */
  datatype Issue = Issue(path: seq<PathSegment>, message: string)

  /** The outcome of a schema check: the validated value, or the list of issues. */
  datatype Validation<T> = Parsed(value: T) | Rejected(issues: seq<Issue>)

  /**
   * The value placed in a content item's `text` field: a value serialised as
   * JSON text, a string passed on unchanged, or a value that is not a string
   * at all.
   */
  datatype Text<D> = Json(reply: Reply<D>) | Verbatim(s: string) | NotAString(value: Reply<D>)

  datatype Content<D> = Content(kind: string, text: Text<D>)

  /** The `tools/call` result: `{content: [...]}`. */
  datatype CallToolResult<D> = CallToolResult(content: seq<Content<D>>)

  /** The collaborators of the handler: one schema check and one handler per tool. */
  datatype Tools<-A, D> = Tools(
    parseReadWebPage: A -> Validation<ReadWebPageArgs>,
    readWebPage: ReadWebPageArgs -> Reply<D>,
    parseSearchWeb: A -> Validation<SearchWebArgs>,
    searchWeb: SearchWebArgs -> SearchReply,
    parseGrounding: A -> Validation<GroundingArgs>,
    groundStatement: GroundingArgs -> Reply<D>)

  /** A catalog entry of `tools/list`; the JSON Schema of its input is not modelled. */
  datatype ToolDescriptor = ToolDescriptor(name: string, description: string)

  const ReadWebPageTool: string := "read_webpage"
  const SearchWebTool: string := "search_web"
  const FactCheckTool: string := "fact_check"

  const ArgumentsRequired: string := "Arguments are required"
  const UnknownToolPrefix: string := "Unknown tool: "
  const InvalidArgumentsPrefix: string := "Invalid arguments: "

  /** The catalog `tools/list` returns, in its order. */
  function ListTools(): (tools: seq<ToolDescriptor>)
    ensures |tools| == 3
    ensures forall i, j :: 0 <= i < j < |tools| ==> tools[i].name != tools[j].name
    ensures forall i :: 0 <= i < |tools| ==> tools[i].name in {ReadWebPageTool, SearchWebTool, FactCheckTool}
  {
    [ ToolDescriptor(ReadWebPageTool, "Extract content from a webpage in a format optimized for LLMs"),
      ToolDescriptor(SearchWebTool, "Search the web using Jina AI's search API"),
      ToolDescriptor(FactCheckTool, "Fact-check a statement using Jina AI's grounding engine") ]
  }

  predicate Listed(name: string) {
    exists i :: 0 <= i < |ListTools()| && ListTools()[i].name == name
  }

  /** A path element as `Array.prototype.join` renders it. */
  function SegmentText(s: PathSegment): string {
    match s
    case Key(name) => name
    case Index(i) => NatToDecimal(i)
  }

  function SegmentTexts(path: seq<PathSegment>): (r: seq<string>)
    ensures |r| == |path|
    ensures forall i :: 0 <= i < |path| ==> r[i] == SegmentText(path[i])
  {
    seq(|path|, i requires 0 <= i < |path| => SegmentText(path[i]))
  }

  /** `e.path.join('.')`. */
  function PathText(path: seq<PathSegment>): string {
    Join(SegmentTexts(path), ".")
  }

  /** `${e.path.join('.')}: ${e.message}`. */
  function IssueText(issue: Issue): string {
    PathText(issue.path) + ": " + issue.message
  }

  function IssueTexts(issues: seq<Issue>): (r: seq<string>)
    ensures |r| == |issues|
    ensures forall i :: 0 <= i < |issues| ==> r[i] == IssueText(issues[i])
  {
    seq(|issues|, i requires 0 <= i < |issues| => IssueText(issues[i]))
  }

  /** The error text of a validation failure: the prefix, then every issue, separated by `, `. */
  function InvalidArgumentsMessage(issues: seq<Issue>): (msg: string)
    ensures |msg| >= |InvalidArgumentsPrefix| && msg[..|InvalidArgumentsPrefix|] == InvalidArgumentsPrefix
    ensures |issues| == 1 ==> msg == InvalidArgumentsPrefix + IssueText(issues[0])
  {
    InvalidArgumentsPrefix + Join(IssueTexts(issues), ", ")
  }

  /** Issues appear in the order the validator reported them: a further issue is appended at the end. */
  lemma InvalidArgumentsInOrder(issues: seq<Issue>, issue: Issue)
    requires |issues| > 0
    ensures InvalidArgumentsMessage(issues + [issue])
         == InvalidArgumentsMessage(issues) + ", " + IssueText(issue)
  {
    assert IssueTexts(issues + [issue]) == IssueTexts(issues) + [IssueText(issue)];
    JoinSnoc(IssueTexts(issues), IssueText(issue), ", ");
  }

  /**
   * A non-empty path whose keys hold no `.` keeps every segment's text in
   * its rendering: splitting at `.` gives back the segment texts, in order.
   * (A key and an index can render alike, `Key("1")` and `Index(1)`.)
   */
  lemma PathTextRecoverable(path: seq<PathSegment>)
    requires |path| > 0
    requires forall i :: 0 <= i < |path| ==> (path[i].Key? ==> '.' !in path[i].name)
    ensures Split(PathText(path), '.') == SegmentTexts(path)
  {
    SplitJoin(SegmentTexts(path), '.');
  }

  /** The error envelope `{status: "error", error: message}`. */
  function ErrorText<D>(message: string): Text<D> {
    Json(ErrorReply(message, None))
  }

  /** `{content: [{type: "text", text}]}`. */
  function Envelope<D>(text: Text<D>): CallToolResult<D> {
    CallToolResult([Content("text", text)])
  }

  /** The envelope is one text item whose text is a string. */
  predicate WellFormed<D>(r: CallToolResult<D>) {
    |r.content| == 1 && r.content[0].kind == "text" && !r.content[0].text.NotAString?
  }

  /** The search branch as written: the handler's result goes into `text` unserialised. */
  function SearchReplyTextAsWritten<D>(reply: SearchReply): (t: Text<D>)
    ensures (t == SearchReplyText<D>(reply)) <==> reply.Results?
  {
    match reply
    case Results(text) => Verbatim(text)
    case SearchFailed(error) => NotAString(ErrorReply(error, None))
  }

  /**
   * A failed search puts an object, not a string, in the `text` field: the
   * handler's own `{status: "error", error}` object, unserialised.
   */
  lemma SearchFailureIsNotText<D>(error: string)
    ensures SearchReplyTextAsWritten<D>(SearchFailed(error)).NotAString?
    ensures SearchReplyTextAsWritten<D>(SearchFailed(error)) == NotAString(ErrorReply(error, None))
  {
  }

  /**
   * The search branch corrected: result text passes through, and an error
   * object is serialised like the other tools' results.
   */
  function SearchReplyText<D>(reply: SearchReply): (t: Text<D>)
    ensures !t.NotAString?
    ensures reply.Results? ==> t == Verbatim(reply.text)
    ensures reply.SearchFailed? ==> t == ErrorText(reply.error)
  {
    match reply
    case Results(text) => Verbatim(text)
    case SearchFailed(error) => ErrorText(error)
  }

  /** The text for a validation outcome: the issues, or what `run` makes of the validated value. */
  function Validated<T, D>(v: Validation<T>, run: T -> Text<D>): Text<D> {
    match v
    case Rejected(issues) => ErrorText(InvalidArgumentsMessage(issues))
    case Parsed(args) => run(args)
  }

  /**
   * The `tools/call` handler. It never fails: missing arguments, an unknown
   * tool and a validation failure each become an error envelope, and a
   * handler's own error object is serialised like its success.
   */
  function CallTool<A, D>(name: string, arguments: Option<A>, tools: Tools<A, D>): (r: CallToolResult<D>)
    ensures WellFormed(r)
    ensures arguments.None? ==> r == Envelope(ErrorText(ArgumentsRequired))
    ensures arguments.Some? && !Listed(name) ==> r == Envelope(ErrorText(UnknownToolPrefix + name))
    ensures arguments.Some? && name == ReadWebPageTool ==>
      var v := tools.parseReadWebPage(arguments.value);
      r == Envelope(if v.Rejected? then ErrorText(InvalidArgumentsMessage(v.issues))
                    else Json(tools.readWebPage(v.value)))
    ensures arguments.Some? && name == SearchWebTool ==>
      var v := tools.parseSearchWeb(arguments.value);
      r == Envelope(if v.Rejected? then ErrorText(InvalidArgumentsMessage(v.issues))
                    else SearchReplyText(tools.searchWeb(v.value)))
    ensures arguments.Some? && name == FactCheckTool ==>
      var v := tools.parseGrounding(arguments.value);
      r == Envelope(if v.Rejected? then ErrorText(InvalidArgumentsMessage(v.issues))
                    else Json(tools.groundStatement(v.value)))
  {
    CatalogMatchesDispatch(name);
    if arguments.None? then
      Envelope(ErrorText(ArgumentsRequired))
    else if name == ReadWebPageTool then
      Envelope(Validated(tools.parseReadWebPage(arguments.value), a => Json(tools.readWebPage(a))))
    else if name == SearchWebTool then
      Envelope(Validated(tools.parseSearchWeb(arguments.value), a => SearchReplyText(tools.searchWeb(a))))
    else if name == FactCheckTool then
      Envelope(Validated(tools.parseGrounding(arguments.value), a => Json(tools.groundStatement(a))))
    else
      Envelope(ErrorText(UnknownToolPrefix + name))
  }

  /**
   * A handler runs only after its arguments cleared validation: when the
   * arguments are missing, the tool is unknown or the validator rejects,
   * the result is the same whatever the handlers would have done.
   */
  lemma HandlersRunOnlyAfterValidation<A, D>(
    name: string, arguments: Option<A>, tools: Tools<A, D>,
    read: ReadWebPageArgs -> Reply<D>, search: SearchWebArgs -> SearchReply, ground: GroundingArgs -> Reply<D>)
    requires
      || arguments.None?
      || !Listed(name)
      || (name == ReadWebPageTool && tools.parseReadWebPage(arguments.value).Rejected?)
      || (name == SearchWebTool && tools.parseSearchWeb(arguments.value).Rejected?)
      || (name == FactCheckTool && tools.parseGrounding(arguments.value).Rejected?)
    ensures CallTool(name, arguments, tools)
         == CallTool(name, arguments, tools.(readWebPage := read, searchWeb := search, groundStatement := ground))
  {
  }

  /**
   * The catalog and the dispatch agree: the names `tools/list` announces are
   * exactly the names `tools/call` dispatches to a validator and handler;
   * every other name gets the unknown-tool error.
   */
  lemma CatalogMatchesDispatch(name: string)
    ensures Listed(name) <==> name == ReadWebPageTool || name == SearchWebTool || name == FactCheckTool
  {
    if name == ReadWebPageTool {
      assert ListTools()[0].name == name;
    } else if name == SearchWebTool {
      assert ListTools()[1].name == name;
    } else if name == FactCheckTool {
      assert ListTools()[2].name == name;
    }
  }

}
