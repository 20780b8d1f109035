/**
 * The tool catalog and the usage recording of tools/views.py: the listing
 * filter with its pagination, the placeholder AI request and process_tool,
 * which appends to the ToolUsage and UserActivity logs.
 */
module Tools {
  import opened Wrappers
  import opened Text
  import opened Decimals
  import opened BillingModels

  datatype ToolStatus = ToolActive | Maintenance | Deprecated

  /** A tool, with the slug of its category and its price per token as a decimal with up to six places. */
  datatype Tool = Tool(id: nat, name: string, slug: string, categorySlug: string, costPerToken: Decimal, status: ToolStatus)

  /** The active tools, and of those only the selected category's when a non-empty category is selected, in catalog order. */
  function ToolList(tools: seq<Tool>, category: Option<string>): (r: seq<Tool>)
    ensures |r| <= |tools|
    ensures forall t :: t in r ==> t in tools && t.status == ToolActive
    ensures forall t :: t in r && category.Some? && category.value != "" ==> t.categorySlug == category.value
  {
    if tools == [] then []
    else
      var t := tools[0];
      var keep := t.status == ToolActive && (category.None? || category.value == "" || t.categorySlug == category.value);
      (if keep then [t] else []) + ToolList(tools[1..], category)
  }

  /** Every active tool of the selected category (or every active tool, with no selection) is listed. */
  lemma {:induction false} ToolListComplete(tools: seq<Tool>, category: Option<string>, t: Tool)
    requires t in tools && t.status == ToolActive
    requires category.None? || category.value == "" || t.categorySlug == category.value
    ensures t in ToolList(tools, category)
    decreases |tools|
  {
    if tools[0] != t {
      ToolListComplete(tools[1..], category, t);
    }
  }

  /** Listing with no selection and listing with the empty selection agree. */
  lemma {:induction false} ToolListEmptySelection(tools: seq<Tool>)
    ensures ToolList(tools, Some("")) == ToolList(tools, None)
    decreases |tools|
  {
    if tools != [] {
      ToolListEmptySelection(tools[1..]);
    }
  }

  const PerPage: nat := 12

  /** The page query parameter after int(): absent or not an integer, or a number. */
  datatype PageParam = NotAnInteger | PageNumber(n: int)

  /** The paginator's page count: at least one page, even for no items. */
  function NumPages(count: nat): (n: nat)
    ensures n >= 1
    ensures (n - 1) * PerPage < (if count == 0 then 1 else count) <= n * PerPage
  {
    var hits := if count == 0 then 1 else count;
    (hits + PerPage - 1) / PerPage
  }

  /** Paginator.get_page: a non-integer gives page 1, a number below 1 or above the count gives the last page. */
  function PageIndex(count: nat, p: PageParam): (n: nat)
    ensures 1 <= n <= NumPages(count)
    ensures p.PageNumber? && 1 <= p.n <= NumPages(count) ==> n == p.n
    ensures p.NotAnInteger? ==> n == 1
    ensures p.PageNumber? && (p.n < 1 || p.n > NumPages(count)) ==> n == NumPages(count)
  {
    match p
    case NotAnInteger => 1
    case PageNumber(k) => if k < 1 || k > NumPages(count) then NumPages(count) else k
  }

  /** The items on the page get_page selects. */
  function GetPage<T>(items: seq<T>, p: PageParam): (r: seq<T>)
    ensures |r| <= PerPage
    ensures items != [] ==> r != []
  {
    var n := PageIndex(|items|, p);
    var bottom := (n - 1) * PerPage;
    var top := if bottom + PerPage < |items| then bottom + PerPage else |items|;
    items[bottom..top]
  }

  /** The item at index i is the (i % 12)-th item of page i / 12 + 1. */
  lemma PageHoldsItem<T>(items: seq<T>, i: nat)
    requires i < |items|
    ensures var page := GetPage(items, PageNumber(i / PerPage + 1));
      i % PerPage < |page| && page[i % PerPage] == items[i]
  {
    var n := i / PerPage + 1;
    assert (n - 1) * PerPage <= i < n * PerPage;
    assert n <= NumPages(|items|);
  }

  /** What process_ai_request returns: its output, the tokens used and the cost. */
  datatype AiResult = AiResult(output: string, tokensUsed: nat, cost: Decimal)

  /** The placeholder AI request: one hundred tokens priced at the tool's cost per token. */
  function ProcessAiRequest(tool: Tool): (r: AiResult)
    ensures r.tokensUsed == 100
    ensures r.cost.exp == tool.costPerToken.exp && r.cost.units == tool.costPerToken.units * r.tokensUsed
  {
    AiResult("Processed result would go here", 100, Times(tool.costPerToken, 100))
  }

  /** The recorded cost is the tool's cost per token times the tokens used, as a value: more expensive tools cost more. */
  lemma AiCostMonotone(a: Tool, b: Tool)
    requires LessEq(a.costPerToken, b.costPerToken)
    ensures LessEq(ProcessAiRequest(a).cost, ProcessAiRequest(b).cost)
  {
    var x := a.costPerToken;
    var y := b.costPerToken;
    assert x.units * 100 * Pow10(y.exp) == (x.units * Pow10(y.exp)) * 100;
    assert y.units * 100 * Pow10(x.exp) == (y.units * Pow10(x.exp)) * 100;
  }

  /**
   * A ToolUsage row. input_data and output_data are None when the view does not
   * supply them, which the ORM sends as SQL NULL.
   */
  datatype ToolUsage = ToolUsage(user: UserId, toolId: nat, inputData: Option<string>, outputData: Option<string>,
                                 tokensUsed: nat, cost: Decimal, success: bool)

  datatype ActivityKind = ToolUsageActivity | ErrorActivity

  datatype Activity = Activity(user: UserId, kind: ActivityKind, description: string)

  /** The request body after json.loads: the parsed data (as its JSON text), or the decoder's error message. */
  datatype RequestBody = ParsedJson(data: string) | InvalidJson(message: string)

  /** The database's answer to inserting a row: stored, or the error it raised. */
  datatype InsertOutcome = Inserted | InsertRejected(message: string)

  datatype ProcessOutcome = MethodNotAllowed | ToolNotFound | Processed(result: AiResult) | ProcessFailed(error: string)

  /** The two append-only logs. */
  datatype Logs = Logs(usages: seq<ToolUsage>, activities: seq<Activity>)

  /**
   * input_data and output_data are JSONField() columns with neither null=True nor
   * a default, so a row lacking either violates their NOT NULL constraint.
   */
  predicate Storable(u: ToolUsage) {
    u.inputData.Some? && u.outputData.Some?
  }

  /** The IntegrityError text for the NULL input_data column, in SQLite's wording. */
  const NullColumnError := "NOT NULL constraint failed: tools_toolusage.input_data"

  /**
   * Inserting a ToolUsage row: a row that is not storable is always refused;
   * otherwise `db`, the database's answer to a well-formed row, decides.
   */
  function InsertUsage(u: ToolUsage, db: InsertOutcome): InsertOutcome {
    if Storable(u) then db else InsertRejected(NullColumnError)
  }

  /** The active tool with that slug (slugs are unique), or None for 404. */
  function FindActiveTool(tools: seq<Tool>, slug: string): (r: Option<Tool>)
    ensures r.Some? ==> r.value in tools && r.value.slug == slug && r.value.status == ToolActive
    ensures r.None? ==> forall t :: t in tools ==> t.slug != slug || t.status != ToolActive
  {
    if tools == [] then None
    else if tools[0].slug == slug && tools[0].status == ToolActive then Some(tools[0])
    else FindActiveTool(tools[1..], slug)
  }

  function UsedDescription(tool: Tool, tokens: nat): string {
    "Used " + tool.name + " tool - " + NatToString(tokens) + " tokens"
  }

  function ErrorDescription(tool: Tool, error: string): string {
    "Error using " + tool.name + " tool: " + error
  }

  /** The except branch: one error activity carrying the message, answered with it. */
  function RecordError(logs: Logs, user: UserId, tool: Tool, error: string): (ProcessOutcome, Logs) {
    (ProcessFailed(error), logs.(activities := logs.activities + [Activity(user, ErrorActivity, ErrorDescription(tool, error))]))
  }

  /** Creating the usage row, then the tool_usage activity; a refused insert lands in the except branch. */
  function RecordUsage(logs: Logs, user: UserId, tool: Tool, result: AiResult, row: ToolUsage, db: InsertOutcome)
    : (ProcessOutcome, Logs)
  {
    match InsertUsage(row, db)
    case InsertRejected(message) => RecordError(logs, user, tool, message)
    case Inserted =>
      (Processed(result),
       Logs(logs.usages + [row], logs.activities + [Activity(user, ToolUsageActivity, UsedDescription(tool, row.tokensUsed))]))
  }

  /** process_tool for `user`, as written: the usage row is created without input_data and output_data. */
  function ProcessToolResult(logs: Logs, user: UserId, isPost: bool, slug: string, tools: seq<Tool>,
                             body: RequestBody, db: InsertOutcome): (ProcessOutcome, Logs)
  {
    if !isPost then (MethodNotAllowed, logs)
    else match FindActiveTool(tools, slug)
      case None => (ToolNotFound, logs)
      case Some(tool) =>
        match body
        case InvalidJson(message) => RecordError(logs, user, tool, message)
        case ParsedJson(_) =>
          var result := ProcessAiRequest(tool);
          RecordUsage(logs, user, tool, result, ToolUsage(user, tool.id, None, None, result.tokensUsed, result.cost, true), db)
  }

  /** process_tool as evidently intended: the usage row also records the request data and the output. */
  function ProcessToolIntended(logs: Logs, user: UserId, isPost: bool, slug: string, tools: seq<Tool>,
                               body: RequestBody, db: InsertOutcome): (ProcessOutcome, Logs)
  {
    if !isPost then (MethodNotAllowed, logs)
    else match FindActiveTool(tools, slug)
      case None => (ToolNotFound, logs)
      case Some(tool) =>
        match body
        case InvalidJson(message) => RecordError(logs, user, tool, message)
        case ParsedJson(data) =>
          var result := ProcessAiRequest(tool);
          var row := ToolUsage(user, tool.id, Some(data), Some(result.output), result.tokensUsed, result.cost, true);
          RecordUsage(logs, user, tool, result, row, db)
  }

  /** A request that is not a POST, or names no active tool, is refused and nothing is recorded. */
  lemma ProcessToolRefused(logs: Logs, user: UserId, isPost: bool, slug: string, tools: seq<Tool>,
                           body: RequestBody, db: InsertOutcome)
    requires !isPost || forall t :: t in tools ==> t.slug != slug || t.status != ToolActive
    ensures var (outcome, logs') := ProcessToolResult(logs, user, isPost, slug, tools, body, db);
      logs' == logs && (outcome == MethodNotAllowed || outcome == ToolNotFound)
  {
  }

  /**
   * As written, every POST with a JSON body to an active tool fails: the usage row
   * is refused for its NULL input_data, no usage is recorded, and one error
   * activity carries the database's message.
   */
  lemma ProcessToolAlwaysFails(logs: Logs, user: UserId, slug: string, tools: seq<Tool>, tool: Tool,
                               data: string, db: InsertOutcome)
    requires FindActiveTool(tools, slug) == Some(tool)
    ensures var (outcome, logs') := ProcessToolResult(logs, user, true, slug, tools, ParsedJson(data), db);
      && outcome == ProcessFailed(NullColumnError)
      && logs'.usages == logs.usages
      && logs'.activities == logs.activities + [Activity(user, ErrorActivity, "Error using " + tool.name + " tool: " + NullColumnError)]
  {
    var result := ProcessAiRequest(tool);
    assert !Storable(ToolUsage(user, tool.id, None, None, result.tokensUsed, result.cost, true));
  }

  /**
   * With the request data and output recorded, a processed request appends exactly
   * one successful usage, costing cost_per_token times tokens_used, and one
   * tool_usage activity.
   */
  lemma ProcessToolSuccess(logs: Logs, user: UserId, slug: string, tools: seq<Tool>, tool: Tool, data: string)
    requires FindActiveTool(tools, slug) == Some(tool)
    ensures var (outcome, logs') := ProcessToolIntended(logs, user, true, slug, tools, ParsedJson(data), Inserted);
      var u := logs'.usages[|logs'.usages| - 1];
      && outcome == Processed(ProcessAiRequest(tool))
      && |logs'.usages| == |logs.usages| + 1 && logs'.usages[..|logs.usages|] == logs.usages
      && u.user == user && u.toolId == tool.id && u.success && u.tokensUsed == 100
      && u.inputData == Some(data) && u.outputData == Some(ProcessAiRequest(tool).output) && Storable(u)
      && u.cost == Times(tool.costPerToken, u.tokensUsed)
      && logs'.activities == logs.activities + [Activity(user, ToolUsageActivity, "Used " + tool.name + " tool - 100 tokens")]
  {
    UsedHundredTokens(tool);
    var result := ProcessAiRequest(tool);
    var row := ToolUsage(user, tool.id, Some(data), Some(result.output), result.tokensUsed, result.cost, true);
    assert ProcessToolIntended(logs, user, true, slug, tools, ParsedJson(data), Inserted)
        == (Processed(result),
            Logs(logs.usages + [row], logs.activities + [Activity(user, ToolUsageActivity, UsedDescription(tool, 100))]));
  }

  /** The corrected view differs from the code as written only on the insert of the usage row. */
  lemma ProcessToolIntendedAgrees(logs: Logs, user: UserId, isPost: bool, slug: string, tools: seq<Tool>,
                                  body: RequestBody, db: InsertOutcome)
    requires !isPost || FindActiveTool(tools, slug).None? || body.InvalidJson?
    ensures ProcessToolIntended(logs, user, isPost, slug, tools, body, db)
         == ProcessToolResult(logs, user, isPost, slug, tools, body, db)
  {
  }

  /** The activity text for the placeholder's one hundred tokens. */
  lemma UsedHundredTokens(tool: Tool)
    ensures UsedDescription(tool, 100) == "Used " + tool.name + " tool - 100 tokens"
  {
    assert NatToString(1) == "1";
    assert NatToString(10) == "10";
    assert NatToString(100) == "100";
  }

  /** A body that is not JSON appends no usage and one error activity carrying the error, and answers 400 with it. */
  lemma ProcessToolInvalidJson(logs: Logs, user: UserId, slug: string, tools: seq<Tool>, tool: Tool,
                               message: string, db: InsertOutcome)
    requires FindActiveTool(tools, slug) == Some(tool)
    ensures var (outcome, logs') := ProcessToolResult(logs, user, true, slug, tools, InvalidJson(message), db);
      && outcome == ProcessFailed(message)
      && logs'.usages == logs.usages
      && logs'.activities == logs.activities + [Activity(user, ErrorActivity, "Error using " + tool.name + " tool: " + message)]
  {
  }

  /** Both logs only grow, by at most one entry each, and a usage is appended exactly when the request is processed. */
  predicate AppendsAtMostOne(logs: Logs, outcome: ProcessOutcome, logs': Logs) {
    && |logs.usages| <= |logs'.usages| <= |logs.usages| + 1 && logs'.usages[..|logs.usages|] == logs.usages
    && |logs.activities| <= |logs'.activities| <= |logs.activities| + 1
    && logs'.activities[..|logs.activities|] == logs.activities
    && (|logs'.usages| > |logs.usages| <==> outcome.Processed?)
    && (outcome.Processed? ==> |logs'.activities| == |logs.activities| + 1
                               && logs'.activities[|logs.activities|].kind == ToolUsageActivity)
    && (outcome.ProcessFailed? ==> |logs'.activities| == |logs.activities| + 1
                                   && logs'.activities[|logs.activities|].kind == ErrorActivity)
  }

  /** process_tool, as written and as intended, only appends to the two logs. */
  lemma ProcessToolAppendOnly(logs: Logs, user: UserId, isPost: bool, slug: string, tools: seq<Tool>,
                              body: RequestBody, db: InsertOutcome)
    ensures var (outcome, logs') := ProcessToolResult(logs, user, isPost, slug, tools, body, db);
      AppendsAtMostOne(logs, outcome, logs')
    ensures var (outcome, logs') := ProcessToolIntended(logs, user, isPost, slug, tools, body, db);
      AppendsAtMostOne(logs, outcome, logs')
  {
  }

  /** The usage and activity logs as process_tool appends to them. */
  class UsageLog {
    var usages: seq<ToolUsage>
    var activities: seq<Activity>

    function Snapshot(): Logs
      reads this
    {
      Logs(usages, activities)
    }

    constructor ()
      ensures usages == [] && activities == []
    {
      usages := [];
      activities := [];
    }

    method ProcessTool(user: UserId, isPost: bool, slug: string, tools: seq<Tool>, body: RequestBody, db: InsertOutcome)
      returns (outcome: ProcessOutcome)
      modifies this
      ensures (outcome, Snapshot()) == ProcessToolResult(old(Snapshot()), user, isPost, slug, tools, body, db)
    {
      if !isPost {
        return MethodNotAllowed;
      }
      var found := FindActiveTool(tools, slug);
      if found.None? {
        return ToolNotFound;
      }
      var tool := found.value;
      if body.InvalidJson? {
        activities := activities + [Activity(user, ErrorActivity, ErrorDescription(tool, body.message))];
        return ProcessFailed(body.message);
      }
      var result := ProcessAiRequest(tool);
      var row := ToolUsage(user, tool.id, None, None, result.tokensUsed, result.cost, true);
      var inserted := InsertUsage(row, db);
      if inserted.InsertRejected? {
        activities := activities + [Activity(user, ErrorActivity, ErrorDescription(tool, inserted.message))];
        return ProcessFailed(inserted.message);
      }
      usages := usages + [row];
      activities := activities + [Activity(user, ToolUsageActivity, UsedDescription(tool, row.tokensUsed))];
      outcome := Processed(result);
    }
  }
}
