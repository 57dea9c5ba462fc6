/**
 * The Gemini adapter: the SDK call is opaque, the analysis is the parse of
 * the trimmed response text, and fixed failure messages replace whatever
 * went wrong.
 */
module GeminiService {
  import opened Basics
  import opened Json
  import opened Http
  import opened AnalysisTypes
  import opened Prompting
  import opened ChatApi

  /** What `ai.models.generateContent` did: rejected, or resolved with a response whose `text` may be undefined. */
  datatype Reply = Rejected(message: string) | Responded(text: Option<string>)

  const AnalysisInstruction: string :=
    "请分析以下恶意软件沙箱报告。你的角色是一位资深的恶意软件逆向工程师。根据提供的 JSON schema 提取关键信息并进行结构化。请确保结果精确而全面。"
  const AnalysisFailed: string := "从 Gemini API 获取分析失败。"
  const RuleFailed: string := "从 Gemini API 生成 YARA 规则失败。"
  const Author: string := "Gemini AI Analyst"
  const RuleClosing: string := "请仅生成 YARA 规则代码。"

  /** The `try` block of `analyzeMalwareReport`: `JSON.parse(response.text.trim())`. */
  function AnalysisAttempt(reply: Reply, parse: Parser): Result<AnalysisResult>
  {
    match reply
    case Rejected(message) => Err(message)
    case Responded(None) => Err(TypeErrorMessage)
    case Responded(Some(text)) => parse(Trim(text))
  }

  /**
   * `analyzeMalwareReport`: the report travels verbatim inside the
   * contents; the analysis is the parse of the trimmed text and every
   * failure becomes the one fixed message.
   */
  function AnalyzeMalwareReport(report: string, reply: Reply, parse: Parser): (r: Exchange<string, AnalysisResult>)
    ensures r.sent.Some? && EmbeddedReport(r.sent.value, AnalysisInstruction) == Some(report)
    ensures r.result.Ok? <==> reply.Responded? && reply.text.Some? && parse(Trim(reply.text.value)).Ok?
    ensures r.result.Ok? ==> r.result == parse(Trim(reply.text.value))
    ensures r.result.Err? ==> r.result == Err(AnalysisFailed)
  {
    ReportPromptRoundTrip(AnalysisInstruction, report);
    Exchange(Some(ReportPrompt(AnalysisInstruction, report)), Replaced(AnalysisAttempt(reply, parse), AnalysisFailed))
  }

  /** Whitespace around the response text makes no difference to the analysis. */
  lemma SurroundingSpaceIgnored(report: string, a: string, b: string, parse: Parser)
    requires Trim(a) == Trim(b)
    ensures AnalyzeMalwareReport(report, Responded(Some(a)), parse) == AnalyzeMalwareReport(report, Responded(Some(b)), parse)
  {
  }

  /** The `try` block of `generateYaraRule`: `response.text.replace(regex, '').trim()`. */
  function RuleAttempt(reply: Reply): Result<string>
  {
    match reply
    case Rejected(message) => Err(message)
    case Responded(None) => Err(TypeErrorMessage)
    case Responded(Some(text)) => Ok(Trim(RemoveFencesAlternation(text)))
  }

  /**
   * `generateYaraRule`: the contents name the rule, tag the author as
   * Gemini and list every key string; the rule is the response text with
   * the same fence removal as the other adapters.
   */
  function GenerateYaraRule(analysis: AnalysisResult, reply: Reply): (r: Exchange<string, string>)
    ensures r.sent.Some?
    ensures IsInfix("规则应命名为 \"" + RuleName(analysis.malwareFamilyGuess) + "\".", r.sent.value)
    ensures IsInfix(RuleAuthorLead + Author + "\"", r.sent.value)
    ensures IsInfix("分析摘要: " + analysis.summary + "\n", r.sent.value)
    ensures forall s :: s in KeyStrings(analysis.indicatorsOfCompromise) ==> IsInfix("- " + s, r.sent.value)
    ensures EndsWith(r.sent.value, IndicatorBlock(KeyStrings(analysis.indicatorsOfCompromise), RuleClosing))
    ensures r.sent.value == RulePrompt(analysis, Author, RuleClosing)
    ensures r.result.Ok? <==> reply.Responded? && reply.text.Some?
    ensures r.result.Ok? ==> r.result.value == StripFences(reply.text.value)
    ensures r.result.Err? ==> r.result == Err(RuleFailed)
  {
    var text := if reply.Responded? && reply.text.Some? then reply.text.value else [];
    StripFencesGeminiForm(text);
    Exchange(Some(RulePrompt(analysis, Author, RuleClosing)), Replaced(RuleAttempt(reply), RuleFailed))
  }
}
