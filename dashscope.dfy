/**
 * The DashScope (Qwen) adapter: a fixed endpoint, error details signalled
 * by a `code` field in the body, the tool call under `output`, and fixed
 * failure messages that replace whatever went wrong.
 */
module DashScopeService {
  import opened Basics
  import opened Json
  import opened Http
  import opened AnalysisTypes
  import opened Prompting
  import opened ChatApi

  const ApiUrl: string := "https://dashscope.aliyuncs.com/api/v1/services/aigc/text-generation/generation"
  const MissingKey: string := "DashScope API 密钥未提供。"
  const ApiErrorLead: string := "DashScope API 错误: "
  const NotCalled: string := "模型未能按预期调用函数。"
  const AnalysisFailed: string := "从 DashScope API 获取分析失败。请检查 API 密钥和网络连接。"
  const RuleFailed: string := "从 DashScope API 生成 YARA 规则失败。"
  const Author: string := "Qwen AI Analyst"
  const RuleClosing: string := "请仅生成 YARA 规则代码，不要包含任何解释或 markdown 格式。"

  /** `(code: ...)` part of the error raised for a body that carries a `code`. */
  function CodeError(data: Json): string
  {
    ApiErrorLead + ToJsString(Prop(data, "message")) + " (code: " + ToJsString(Prop(data, "code")) + ")"
  }

  /**
   * The reply checks of `callDashScopeAPI`: the body is accepted only from
   * an OK status and only when its `code` is not truthy.
   */
  function CheckedReply(reply: Transport): (r: Result<Json>)
    ensures r.Ok? <==>
      (reply.Received? && IsOk(reply.response.status) && reply.response.body.Parsed?
       && reply.response.body.json != JNull && !Truthy(Prop(reply.response.body.json, "code")))
    ensures r.Ok? ==> r.value == reply.response.body.json
  {
    match reply
    case Unreachable(message) => Err(message)
    case Received(response) =>
      if !IsOk(response.status) then
        Err(ApiErrorLead + IntToString(response.status) + " " + response.statusText)
      else
        match response.body
        case Unparsable(message) => Err(message)
        case Parsed(data) =>
          match Member(Some(data), "code")
          case Err(e) => Err(e)
          case Ok(code) => if Truthy(code) then Err(CodeError(data)) else Ok(data)
  }

  /** A body with a truthy `code` is an error that carries both the message and the code. */
  lemma CodeReported(response: Response)
    requires IsOk(response.status) && response.body.Parsed? && Truthy(Prop(response.body.json, "code"))
    ensures CheckedReply(Received(response)).Err?
    ensures IsInfix(ToJsString(Prop(response.body.json, "message")), CheckedReply(Received(response)).message)
    ensures IsInfix(ToJsString(Prop(response.body.json, "code")), CheckedReply(Received(response)).message)
  {
    var data := response.body.json;
    var message, code := ToJsString(Prop(data, "message")), ToJsString(Prop(data, "code"));
    var tail := " (code: " + code + ")";
    assert CodeError(data) == ApiErrorLead + message + tail;
    InfixOfConcat(ApiErrorLead, message, tail);
    InfixOfConcat(ApiErrorLead + message + " (code: ", code, ")");
  }

  /** `callDashScopeAPI`: nothing is sent without a key. */
  function CallDashScopeApi(apiKey: string, prompt: string, reply: Transport): (r: Exchange<Request, Json>)
    ensures r.sent == None <==> apiKey == []
    ensures r.sent == None ==> r.result == Err(MissingKey)
    ensures r.sent.Some? ==> r.sent.value == Request(ApiUrl, apiKey, prompt) && r.result == CheckedReply(reply)
  {
    if apiKey == [] then Exchange(None, Err(MissingKey))
    else Exchange(Some(Request(ApiUrl, apiKey, prompt)), CheckedReply(reply))
  }

  /** `data.output.tool_calls?.[0]`: a TypeError when `output` is missing. */
  function FirstToolCall(data: Json): Result<Option<Json>>
  {
    match Member(Prop(data, "output"), "tool_calls")
    case Err(e) => Err(e)
    case Ok(calls) => Ok(OptIndex(calls, 0))
  }

  /** `data.output.text` */
  function OutputText(data: Json): Result<Option<Json>>
  {
    Member(Prop(data, "output"), "text")
  }

  /** The `try` block of `analyzeMalwareReport`. */
  function AnalysisAttempt(apiKey: string, prompt: string, reply: Transport, parse: Parser): Exchange<Request, AnalysisResult>
  {
    var call := CallDashScopeApi(apiKey, prompt, reply);
    match call.result
    case Err(e) => Exchange(call.sent, Err(e))
    case Ok(data) =>
      match FirstToolCall(data)
      case Err(e) => Exchange(call.sent, Err(e))
      case Ok(toolCall) => Exchange(call.sent, CalledArguments(toolCall, NotCalled, parse))
  }

  /**
   * `analyzeMalwareReport`: the report travels verbatim inside the prompt;
   * an analysis is returned only from a function tool call under `output`,
   * and every failure becomes the one fixed message.
   */
  function AnalyzeMalwareReport(report: string, apiKey: string, reply: Transport, parse: Parser)
    : (r: Exchange<Request, AnalysisResult>)
    ensures r.sent == None <==> apiKey == []
    ensures r.sent.Some? ==> r.sent.value.url == ApiUrl && r.sent.value.apiKey == apiKey
    ensures r.sent.Some? ==> EmbeddedReport(r.sent.value.prompt, ToolInstruction) == Some(report)
    ensures r.result.Ok? <==>
      (r.sent.Some? && CheckedReply(reply).Ok? && FirstToolCall(CheckedReply(reply).value).Ok?
       && IsFunctionCall(FirstToolCall(CheckedReply(reply).value).value)
       && CalledArguments(FirstToolCall(CheckedReply(reply).value).value, NotCalled, parse).Ok?)
    ensures r.result.Ok? ==> r.result == CalledArguments(FirstToolCall(CheckedReply(reply).value).value, NotCalled, parse)
    ensures r.result.Err? ==> r.result == Err(AnalysisFailed)
  {
    var prompt := ReportPrompt(ToolInstruction, report);
    ReportPromptRoundTrip(ToolInstruction, report);
    var attempt := AnalysisAttempt(apiKey, prompt, reply, parse);
    Exchange(attempt.sent, Replaced(attempt.result, AnalysisFailed))
  }

  /** Different failures are indistinguishable to the caller. */
  lemma AnalysisFailuresIndistinguishable(report: string, apiKey: string, a: Transport, b: Transport, parse: Parser)
    requires AnalyzeMalwareReport(report, apiKey, a, parse).result.Err?
    requires AnalyzeMalwareReport(report, apiKey, b, parse).result.Err?
    ensures AnalyzeMalwareReport(report, apiKey, a, parse).result == AnalyzeMalwareReport(report, apiKey, b, parse).result
  {
  }

  /** `output.text.replace(...).trim()`: a missing or non-string text throws. */
  function RuleFromText(text: Option<Json>): (r: Result<string>)
    ensures r.Ok? <==> text.Some? && text.value.JStr?
    ensures r.Ok? ==> r.value == StripFences(text.value.s)
  {
    match text
    case Some(JStr(s)) => Ok(StripFences(s))
    case _ => Err(TypeErrorMessage)
  }

  /** The `try` block of `generateYaraRule`. */
  function RuleAttempt(apiKey: string, prompt: string, reply: Transport): Exchange<Request, string>
  {
    var call := CallDashScopeApi(apiKey, prompt, reply);
    match call.result
    case Err(e) => Exchange(call.sent, Err(e))
    case Ok(data) =>
      match OutputText(data)
      case Err(e) => Exchange(call.sent, Err(e))
      case Ok(text) => Exchange(call.sent, RuleFromText(text))
  }

  /**
   * `generateYaraRule`: the prompt names the rule, tags the author as Qwen
   * and lists every key string; the rule is the fence-free, trimmed
   * `output.text`, and every failure becomes the one fixed message.
   */
  function GenerateYaraRule(analysis: AnalysisResult, apiKey: string, reply: Transport): (r: Exchange<Request, string>)
    ensures r.sent == None <==> apiKey == []
    ensures r.sent.Some? ==> IsInfix("规则应命名为 \"" + RuleName(analysis.malwareFamilyGuess) + "\".", r.sent.value.prompt)
    ensures r.sent.Some? ==> IsInfix(RuleAuthorLead + Author + "\"", r.sent.value.prompt)
    ensures r.sent.Some? ==> IsInfix("分析摘要: " + analysis.summary + "\n", r.sent.value.prompt)
    ensures r.sent.Some? ==> forall s :: s in KeyStrings(analysis.indicatorsOfCompromise) ==>
      IsInfix("- " + s, r.sent.value.prompt)
    ensures r.sent.Some? ==> EndsWith(r.sent.value.prompt, IndicatorBlock(KeyStrings(analysis.indicatorsOfCompromise), RuleClosing))
    ensures r.sent.Some? ==> r.sent.value.prompt == RulePrompt(analysis, Author, RuleClosing)
    ensures r.result.Ok? <==>
      (r.sent.Some? && CheckedReply(reply).Ok? && OutputText(CheckedReply(reply).value).Ok?
       && RuleFromText(OutputText(CheckedReply(reply).value).value).Ok?)
    ensures r.result.Ok? ==> r.result == RuleFromText(OutputText(CheckedReply(reply).value).value)
    ensures r.result.Err? ==> r.result == Err(RuleFailed)
  {
    var prompt := RulePrompt(analysis, Author, RuleClosing);
    var attempt := RuleAttempt(apiKey, prompt, reply);
    Exchange(attempt.sent, Replaced(attempt.result, RuleFailed))
  }

  /** Unlike the custom adapter, an empty `output.text` is accepted and gives an empty rule. */
  lemma EmptyTextGivesEmptyRule(analysis: AnalysisResult, apiKey: string, response: Response)
    requires apiKey != [] && CheckedReply(Received(response)).Ok?
    requires OutputText(response.body.json) == Ok(Some(JStr([])))
    ensures GenerateYaraRule(analysis, apiKey, Received(response)).result == Ok([])
  {
    assert Trim(RemoveFencesOptionalTag([])) == [];
  }
}
