/**
 * What the provider adapters have in common: the request the two HTTP chat
 * adapters (the custom OpenAI-compatible endpoint and DashScope) post, the
 * acceptance of a tool call in the reply, and the two ways a `catch` block
 * re-raises a failure.
 */
module ChatApi {
  import opened Basics
  import opened Json
  import opened AnalysisTypes

  /**
   * A POST to a chat endpoint with a bearer key; `prompt` is the user
   * message (model name, system message, tool schema and temperature are
   * fixed per call site and not modelled).
   */
  datatype Request = Request(url: string, apiKey: string, prompt: string)

  /** `JSON.parse(text) as AnalysisResult`: the parser's outcome; the cast checks nothing. */
  type Parser = string -> Result<AnalysisResult>

  /** `toolCall && toolCall.type === 'function'` */
  predicate IsFunctionCall(toolCall: Option<Json>)
  {
    Truthy(toolCall) && Prop(toolCall.value, "type") == Some(JStr("function"))
  }

  /** `toolCall.function.arguments` of an accepted call, `None` when `function` is missing. */
  function ArgumentsOf(toolCall: Json): Option<Option<Json>>
  {
    var called := Prop(toolCall, "function");
    if Nullish(called) then None else Some(Prop(called.value, "arguments"))
  }

  /**
   * The analysis read from a tool call: the parse of the function's
   * arguments when the call is a function call, `notCalled` otherwise.
   */
  function CalledArguments(toolCall: Option<Json>, notCalled: string, parse: Parser): (r: Result<AnalysisResult>)
    ensures !IsFunctionCall(toolCall) ==> r == Err(notCalled)
    ensures r.Ok? <==>
      (IsFunctionCall(toolCall) && ArgumentsOf(toolCall.value).Some?
       && parse(ToJsString(ArgumentsOf(toolCall.value).value)).Ok?)
    ensures r.Ok? ==> r == parse(ToJsString(ArgumentsOf(toolCall.value).value))
  {
    if IsFunctionCall(toolCall) then
      match Member(Prop(toolCall.value, "function"), "arguments")
      case Err(e) => Err(e)
      case Ok(arguments) => parse(ToJsString(arguments))
    else Err(notCalled)
  }

  /** The instruction both tool-calling adapters put before the report. */
  const ToolInstruction: string :=
    "请分析以下恶意软件沙箱报告。你的角色是一位资深的恶意软件逆向工程师。调用 'extract_malware_info' 函数来提取关键信息并进行结构化。请确保结果精确而全面。"

  /**
   * `catch (error) { throw new Error(lead + error.message) }`: a failure is
   * re-raised with `lead` in front of its message; a result passes through.
   */
  function WithLead<T>(attempt: Result<T>, lead: string): (r: Result<T>)
    ensures r.Ok? <==> attempt.Ok?
    ensures r.Ok? ==> r == attempt
    ensures r.Err? ==> StartsWith(r.message, lead) && r.message[|lead|..] == attempt.message
  {
    match attempt
    case Ok(v) => Ok(v)
    case Err(message) =>
      assert (lead + message)[..|lead|] == lead;
      Err(lead + message)
  }

  /** `catch { throw new Error(fixed) }`: the inner message is dropped. */
  function Replaced<T>(attempt: Result<T>, fixed: string): (r: Result<T>)
    ensures r.Ok? <==> attempt.Ok?
    ensures r.Ok? ==> r == attempt
    ensures r.Err? ==> r.message == fixed
  {
    if attempt.Ok? then attempt else Err(fixed)
  }
}
