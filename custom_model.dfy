/**
 * The adapter for a user-supplied OpenAI-compatible chat endpoint: the
 * envelope checks of the call, the extraction of the forced tool call, and
 * the rule generation from the message content.
 */
module CustomModelService {
  import opened Basics
  import opened Json
  import opened Http
  import opened AnalysisTypes
  import opened Prompting
  import opened ChatApi

  const MissingEndpoint: string := "自定义模型的 URL 或 API 密钥未提供。"
  const ApiErrorLead: string := "自定义模型 API 错误: "
  const NotCalled: string := "模型未能按预期调用函数。请检查模型是否支持 Function/Tool Calling。"
  const AnalysisFailedLead: string := "从自定义模型获取分析失败: "
  const NoGeneratedCode: string := "API 响应中未找到生成的代码。"
  const RuleFailedLead: string := "从自定义模型生成 YARA 规则失败: "
  const Author: string := "Custom AI Analyst"
  const RuleClosing: string := "请仅生成 YARA 规则代码，不要包含任何解释或 markdown 格式。"

  /**
   * The reply checks of `callCustomAPI`: the body is accepted only from an
   * OK status and only when it has no truthy `error` field.
   */
  function CheckedReply(reply: Transport): (r: Result<Json>)
    ensures r.Ok? <==>
      (reply.Received? && IsOk(reply.response.status) && reply.response.body.Parsed?
       && reply.response.body.json != JNull && !Truthy(Prop(reply.response.body.json, "error")))
    ensures r.Ok? ==> r.value == reply.response.body.json
  {
    match reply
    case Unreachable(message) => Err(message)
    case Received(response) =>
      if !IsOk(response.status) then
        Err(ApiErrorLead + IntToString(response.status) + " " + response.statusText)
      else
        match response.body
        case Unparsable(message) => Err(message)
        case Parsed(data) =>
          match Member(Some(data), "error")
          case Err(e) => Err(e)
          case Ok(error) =>
            if Truthy(error) then Err(ApiErrorLead + ToJsString(OptMember(error, "message")))
            else Ok(data)
  }

  /** `callCustomAPI`: nothing is sent without both a URL and a key. */
  function CallCustomApi(apiUrl: string, apiKey: string, prompt: string, reply: Transport): (r: Exchange<Request, Json>)
    ensures r.sent == None <==> apiKey == [] || apiUrl == []
    ensures r.sent == None ==> r.result == Err(MissingEndpoint)
    ensures r.sent.Some? ==> r.sent.value == Request(apiUrl, apiKey, prompt) && r.result == CheckedReply(reply)
  {
    if apiKey == [] || apiUrl == [] then Exchange(None, Err(MissingEndpoint))
    else Exchange(Some(Request(apiUrl, apiKey, prompt)), CheckedReply(reply))
  }

  /** A failed status is reported with the status code in the message. */
  lemma FailedStatusReported(response: Response)
    requires !IsOk(response.status)
    ensures CheckedReply(Received(response)).Err?
    ensures IsInfix(IntToString(response.status), CheckedReply(Received(response)).message)
  {
    InfixOfConcat(ApiErrorLead, IntToString(response.status), " " + response.statusText);
    assert ApiErrorLead + IntToString(response.status) + (" " + response.statusText)
      == ApiErrorLead + IntToString(response.status) + " " + response.statusText;
  }

  /** A body with an `error` object is reported with that object's message. */
  lemma ErrorFieldReported(response: Response)
    requires IsOk(response.status) && response.body.Parsed?
    requires Truthy(Prop(response.body.json, "error"))
    ensures CheckedReply(Received(response)).Err?
    ensures IsInfix(ToJsString(Prop(Prop(response.body.json, "error").value, "message")),
      CheckedReply(Received(response)).message)
  {
    var message := ToJsString(Prop(Prop(response.body.json, "error").value, "message"));
    InfixOfConcat(ApiErrorLead, message, []);
    assert ApiErrorLead + message + [] == ApiErrorLead + message;
  }

  /** `data.choices?.[0]?.message?.tool_calls?.[0]` */
  function FirstToolCall(data: Json): Option<Json>
  {
    OptIndex(OptMember(OptMember(OptIndex(Prop(data, "choices"), 0), "message"), "tool_calls"), 0)
  }

  /** `data.choices?.[0]?.message?.content` */
  function MessageContent(data: Json): Option<Json>
  {
    OptMember(OptMember(OptIndex(Prop(data, "choices"), 0), "message"), "content")
  }

  /** The `try` block of `analyzeMalwareReport`. */
  function AnalysisAttempt(apiUrl: string, apiKey: string, prompt: string, reply: Transport, parse: Parser)
    : Exchange<Request, AnalysisResult>
  {
    var call := CallCustomApi(apiUrl, apiKey, prompt, reply);
    match call.result
    case Err(e) => Exchange(call.sent, Err(e))
    case Ok(data) => Exchange(call.sent, CalledArguments(FirstToolCall(data), NotCalled, parse))
  }

  /**
   * `analyzeMalwareReport`: the report travels verbatim inside the prompt;
   * an analysis is returned only from a function tool call in an accepted
   * reply, and every failure carries the adapter's lead.
   */
  function AnalyzeMalwareReport(report: string, apiUrl: string, apiKey: string, reply: Transport, parse: Parser)
    : (r: Exchange<Request, AnalysisResult>)
    ensures r.sent == None <==> apiKey == [] || apiUrl == []
    ensures r.sent.Some? ==> r.sent.value.url == apiUrl && r.sent.value.apiKey == apiKey
    ensures r.sent.Some? ==> EmbeddedReport(r.sent.value.prompt, ToolInstruction) == Some(report)
    ensures r.result.Ok? <==>
      (r.sent.Some? && CheckedReply(reply).Ok? && IsFunctionCall(FirstToolCall(CheckedReply(reply).value))
       && CalledArguments(FirstToolCall(CheckedReply(reply).value), NotCalled, parse).Ok?)
    ensures r.result.Ok? ==> r.result == CalledArguments(FirstToolCall(CheckedReply(reply).value), NotCalled, parse)
    ensures r.result.Err? ==> StartsWith(r.result.message, AnalysisFailedLead)
    ensures r.sent == None ==> r.result == Err(AnalysisFailedLead + MissingEndpoint)
    ensures r.sent.Some? && CheckedReply(reply).Err? ==> r.result == Err(AnalysisFailedLead + CheckedReply(reply).message)
    ensures (r.sent.Some? && CheckedReply(reply).Ok?
             && CalledArguments(FirstToolCall(CheckedReply(reply).value), NotCalled, parse).Err?) ==>
      r.result == Err(AnalysisFailedLead + CalledArguments(FirstToolCall(CheckedReply(reply).value), NotCalled, parse).message)
  {
    var prompt := ReportPrompt(ToolInstruction, report);
    ReportPromptRoundTrip(ToolInstruction, report);
    var attempt := AnalysisAttempt(apiUrl, apiKey, prompt, reply, parse);
    Exchange(attempt.sent, WithLead(attempt.result, AnalysisFailedLead))
  }

  /** A reply whose first tool call is not a function call is the "not called" failure. */
  lemma NoFunctionCallFails(report: string, apiUrl: string, apiKey: string, response: Response, parse: Parser)
    requires apiKey != [] && apiUrl != []
    requires CheckedReply(Received(response)).Ok?
    requires !IsFunctionCall(FirstToolCall(response.body.json))
    ensures AnalyzeMalwareReport(report, apiUrl, apiKey, Received(response), parse).result
      == Err(AnalysisFailedLead + NotCalled)
  {
  }

  /** The message content as the rule: empty or missing content is an error; fences are stripped. */
  function RuleFromContent(content: Option<Json>): (r: Result<string>)
    ensures !Truthy(content) ==> r == Err(NoGeneratedCode)
    ensures r.Ok? <==> Truthy(content) && content.value.JStr?
    ensures r.Ok? ==> r.value == StripFences(content.value.s)
  {
    if !Truthy(content) then Err(NoGeneratedCode)
    else
      match content.value
      case JStr(text) => Ok(StripFences(text))
      case _ => Err(TypeErrorMessage)
  }

  /** The `try` block of `generateYaraRule`. */
  function RuleAttempt(apiUrl: string, apiKey: string, prompt: string, reply: Transport): Exchange<Request, string>
  {
    var call := CallCustomApi(apiUrl, apiKey, prompt, reply);
    match call.result
    case Err(e) => Exchange(call.sent, Err(e))
    case Ok(data) => Exchange(call.sent, RuleFromContent(MessageContent(data)))
  }

  /**
   * `generateYaraRule`: the prompt names the rule, tags the author and lists
   * every key string; the rule is the fence-free, trimmed message content.
   */
  function GenerateYaraRule(analysis: AnalysisResult, apiUrl: string, apiKey: string, reply: Transport)
    : (r: Exchange<Request, string>)
    ensures r.sent == None <==> apiKey == [] || apiUrl == []
    ensures r.sent.Some? ==> IsInfix("规则应命名为 \"" + RuleName(analysis.malwareFamilyGuess) + "\".", r.sent.value.prompt)
    ensures r.sent.Some? ==> IsInfix(RuleAuthorLead + Author + "\"", r.sent.value.prompt)
    ensures r.sent.Some? ==> IsInfix("分析摘要: " + analysis.summary + "\n", r.sent.value.prompt)
    ensures r.sent.Some? ==> forall s :: s in KeyStrings(analysis.indicatorsOfCompromise) ==>
      IsInfix("- " + s, r.sent.value.prompt)
    ensures r.sent.Some? ==> EndsWith(r.sent.value.prompt, IndicatorBlock(KeyStrings(analysis.indicatorsOfCompromise), RuleClosing))
    ensures r.sent.Some? ==> r.sent.value.prompt == RulePrompt(analysis, Author, RuleClosing)
    ensures r.result.Ok? <==> r.sent.Some? && CheckedReply(reply).Ok? && RuleFromContent(MessageContent(CheckedReply(reply).value)).Ok?
    ensures r.result.Ok? ==> r.result == RuleFromContent(MessageContent(CheckedReply(reply).value))
    ensures r.result.Err? ==> StartsWith(r.result.message, RuleFailedLead)
    ensures r.sent == None ==> r.result == Err(RuleFailedLead + MissingEndpoint)
    ensures r.sent.Some? && CheckedReply(reply).Err? ==> r.result == Err(RuleFailedLead + CheckedReply(reply).message)
    ensures r.sent.Some? && CheckedReply(reply).Ok? && RuleFromContent(MessageContent(CheckedReply(reply).value)).Err? ==>
      r.result == Err(RuleFailedLead + RuleFromContent(MessageContent(CheckedReply(reply).value)).message)
  {
    var prompt := RulePrompt(analysis, Author, RuleClosing);
    var attempt := RuleAttempt(apiUrl, apiKey, prompt, reply);
    Exchange(attempt.sent, WithLead(attempt.result, RuleFailedLead))
  }

  /** The usual fenced reply yields the bare rule. */
  lemma FencedReplyYieldsRule(analysis: AnalysisResult, apiUrl: string, apiKey: string, response: Response, rule: string)
    requires apiKey != [] && apiUrl != [] && rule == "rule X {}"
    requires CheckedReply(Received(response)).Ok?
    requires MessageContent(response.body.json) == Some(JStr("```yara\n" + rule + "\n```"))
    ensures GenerateYaraRule(analysis, apiUrl, apiKey, Received(response)).result == Ok(rule)
  {
    StripFencesExample(rule);
  }
}
