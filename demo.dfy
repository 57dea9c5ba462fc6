/**
 * The interactive demo's workflow state: the state slots of the component
 * and the handlers that update them. Lookup and analysis results arrive as
 * parameters (the awaited service calls are outside this model), so each
 * handler runs from start to finish in one step.
 */
module Demo {
  import opened Basics
  import opened AnalysisTypes
  import CustomModelService
  import DashScopeService
  import Http
  import ChatApi

  datatype AiModel = Gemini | DashScope | Custom

  datatype InputMode = Upload | Hash

  /** A file the user picked; only its name is shown. */
  datatype PickedFile = PickedFile(name: string)

  /**
   * The slots the user configures through the form (model choice, model
   * keys and URL, VirusTotal key); no handler changes them.
   */
  datatype Settings = Settings(
    selectedModel: AiModel,
    geminiApiKey: string,
    dashscopeApiKey: string,
    customModelUrl: string,
    customModelApiKey: string,
    vtApiKey: string)

  /** The adapter `handleAnalysis` calls for the selected model and the credentials it passes. */
  datatype ServiceCall = GeminiCall(apiKey: string) | DashScopeCall(apiKey: string) | CustomCall(url: string, apiKey: string)

  const EnterValidHash: string := "请输入有效的哈希值。"
  const EnterKeyForUpload: string := "请输入您的 VirusTotal API 密钥以自动获取报告。"
  const EnterKeyForQuery: string := "请输入您的 VirusTotal API 密钥以查询报告。"

  class InteractiveDemo {
    var report: string
    var analysis: Option<AnalysisResult>
    var yaraRule: string
    var isLoading: bool
    var error: string
    var selectedFile: Option<PickedFile>
    var fileHash: string
    var inputMode: InputMode
    var inputHash: string
    var settings: Settings
    /** The `value` of the hidden file input, which is rendered only in upload mode. */
    var fileInputValue: string

    /** A generated rule is only ever shown together with the analysis it came from. */
    predicate RuleHasAnalysis()
      reads this
    {
      yaraRule != [] ==> analysis.Some?
    }

    /** The initial state: everything empty, upload mode, Gemini selected. */
    constructor ()
      ensures report == [] && analysis == None && yaraRule == [] && !isLoading && error == []
      ensures selectedFile == None && fileHash == [] && inputMode == Upload && inputHash == []
      ensures settings == Settings(Gemini, [], [], [], [], []) && fileInputValue == []
      ensures RuleHasAnalysis()
    {
      report, analysis, yaraRule, isLoading, error := [], None, [], false, [];
      selectedFile, fileHash, inputMode, inputHash := None, [], Upload, [];
      settings, fileInputValue := Settings(Gemini, [], [], [], [], []), [];
    }

    /**
     * `resetState`: report, analysis, rule, error, hash and file are
     * emptied; keys, model, input mode, typed hash and loading flag keep
     * their values.
     */
    method ResetState()
      modifies this
      ensures report == [] && analysis == None && yaraRule == [] && error == []
      ensures fileHash == [] && selectedFile == None
      ensures settings == old(settings)
      ensures inputMode == old(inputMode) && inputHash == old(inputHash)
      ensures isLoading == old(isLoading) && fileInputValue == old(fileInputValue)
    {
      report := [];
      analysis := None;
      yaraRule := [];
      error := [];
      fileHash := [];
      selectedFile := None;
    }

    /**
     * `handleFileUpload`: the state is reset and the file selected first;
     * without a VirusTotal key only the error is set and nothing is looked
     * up. `hashed` is the digest computation's outcome, `lookup` the
     * formatted report or the lookup's failure; `lookedUp` is the digest
     * sent to VirusTotal, if any.
     */
    method HandleFileUpload(file: PickedFile, hashed: Result<string>, lookup: Result<string>)
      returns (lookedUp: Option<string>)
      modifies this
      ensures selectedFile == Some(file) && inputHash == [] && analysis == None && yaraRule == []
      ensures settings == old(settings)
      ensures inputMode == old(inputMode) && fileInputValue == old(fileInputValue)
      ensures isLoading == (old(isLoading) && settings.vtApiKey == [])
      ensures settings.vtApiKey == [] ==> lookedUp == None && error == EnterKeyForUpload && report == [] && fileHash == []
      ensures settings.vtApiKey != [] && hashed.Err? ==> lookedUp == None && error == hashed.message && report == [] && fileHash == []
      ensures settings.vtApiKey != [] && hashed.Ok? ==> lookedUp == Some(hashed.value) && fileHash == hashed.value
      ensures settings.vtApiKey != [] && hashed.Ok? && lookup.Ok? ==> report == lookup.value && error == []
      ensures settings.vtApiKey != [] && hashed.Ok? && lookup.Err? ==> report == [] && error == lookup.message
    {
      ResetState();
      inputHash := [];
      selectedFile := Some(file);
      if settings.vtApiKey == [] {
        error := EnterKeyForUpload;
        return None;
      }
      isLoading := true;
      lookedUp := None;
      match hashed {
        case Err(message) =>
          error := message;
        case Ok(hash) =>
          fileHash := hash;
          lookedUp := Some(hash);
          match lookup {
            case Ok(formatted) => report := formatted;
            case Err(message) => error := message;
          }
      }
      isLoading := false;
    }

    /**
     * `handleHashQuery`: a blank hash only sets the error, then a missing
     * key only sets the error (the blank check first); otherwise the state
     * is reset, the trimmed hash is shown and looked up.
     */
    method HandleHashQuery(lookup: Result<string>) returns (lookedUp: Option<string>)
      modifies this
      ensures old(RuleHasAnalysis()) ==> RuleHasAnalysis()
      ensures settings == old(settings)
      ensures inputMode == old(inputMode) && inputHash == old(inputHash) && fileInputValue == old(fileInputValue)
      ensures lookedUp.Some? <==> Trim(inputHash) != [] && settings.vtApiKey != []
      ensures Trim(inputHash) == [] ==> error == EnterValidHash
      ensures Trim(inputHash) != [] && settings.vtApiKey == [] ==> error == EnterKeyForQuery
      ensures lookedUp == None ==>
        (report == old(report) && analysis == old(analysis) && yaraRule == old(yaraRule)
         && fileHash == old(fileHash) && selectedFile == old(selectedFile) && isLoading == old(isLoading))
      ensures lookedUp.Some? ==>
        (lookedUp.value == Trim(inputHash) && fileHash == Trim(inputHash)
         && selectedFile == None && analysis == None && yaraRule == [] && !isLoading)
      ensures lookedUp.Some? && lookup.Ok? ==> report == lookup.value && error == []
      ensures lookedUp.Some? && lookup.Err? ==> report == [] && error == lookup.message
    {
      var hash := Trim(inputHash);
      if hash == [] {
        error := EnterValidHash;
        return None;
      }
      if settings.vtApiKey == [] {
        error := EnterKeyForQuery;
        return None;
      }
      LookUpHash(hash, lookup);
      lookedUp := Some(hash);
    }

    /** The part of `handleHashQuery` after validation: reset, show the hash, look it up. */
    method LookUpHash(hash: string, lookup: Result<string>)
      modifies this
      ensures settings == old(settings)
      ensures inputMode == old(inputMode) && inputHash == old(inputHash) && fileInputValue == old(fileInputValue)
      ensures fileHash == hash && selectedFile == None && analysis == None && yaraRule == [] && !isLoading
      ensures lookup.Ok? ==> report == lookup.value && error == []
      ensures lookup.Err? ==> report == [] && error == lookup.message
    {
      ResetState();
      isLoading := true;
      fileHash := hash;
      match lookup {
        case Ok(formatted) => report := formatted;
        case Err(message) => error := message;
      }
      isLoading := false;
    }

    /**
     * `clearSelection`: a reset that also empties the typed hash, returns
     * to upload mode and clears the file input when it is rendered.
     */
    method ClearSelection()
      modifies this
      ensures report == [] && analysis == None && yaraRule == [] && error == []
      ensures fileHash == [] && selectedFile == None && inputHash == [] && inputMode == Upload
      ensures settings == old(settings)
      ensures isLoading == old(isLoading)
      ensures fileInputValue == if old(inputMode) == Upload then [] else old(fileInputValue)
    {
      var rendered := inputMode == Upload;
      ResetState();
      inputHash := [];
      inputMode := Upload;
      if rendered {
        fileInputValue := [];
      }
    }

    /** The selected adapter and the credentials `handleAnalysis` passes to it. */
    function Dispatch(): (call: ServiceCall)
      reads this
      ensures settings.selectedModel == Gemini <==> call.GeminiCall?
      ensures settings.selectedModel == DashScope <==> call.DashScopeCall?
      ensures settings.selectedModel == Custom <==> call.CustomCall?
      ensures call.GeminiCall? ==> call.apiKey == settings.geminiApiKey
      ensures call.DashScopeCall? ==> call.apiKey == settings.dashscopeApiKey
      ensures call.CustomCall? ==> call.url == settings.customModelUrl && call.apiKey == settings.customModelApiKey
    {
      match settings.selectedModel
      case Gemini => GeminiCall(settings.geminiApiKey)
      case DashScope => DashScopeCall(settings.dashscopeApiKey)
      case Custom => CustomCall(settings.customModelUrl, settings.customModelApiKey)
    }

    /**
     * `handleAnalysis`: error, analysis and rule are cleared first; the
     * analysis is stored before the rule is generated, so a failed rule
     * keeps the analysis. `analyzed` is the selected adapter's analysis,
     * `generate` its rule generation.
     */
    method HandleAnalysis(analyzed: Result<AnalysisResult>, generate: AnalysisResult -> Result<string>)
      returns (call: ServiceCall)
      modifies this
      ensures RuleHasAnalysis()
      ensures call == Dispatch()
      ensures settings == old(settings)
      ensures report == old(report) && fileHash == old(fileHash) && selectedFile == old(selectedFile)
      ensures inputMode == old(inputMode) && inputHash == old(inputHash) && fileInputValue == old(fileInputValue)
      ensures !isLoading
      ensures analyzed.Err? ==> analysis == None && yaraRule == [] && error == analyzed.message
      ensures analyzed.Ok? ==> analysis == Some(analyzed.value)
      ensures analyzed.Ok? && generate(analyzed.value).Ok? ==> yaraRule == generate(analyzed.value).value && error == []
      ensures analyzed.Ok? && generate(analyzed.value).Err? ==> yaraRule == [] && error == generate(analyzed.value).message
    {
      isLoading := true;
      error := [];
      analysis := None;
      yaraRule := [];
      call := Dispatch();
      match analyzed {
        case Err(message) =>
          error := message;
        case Ok(result) =>
          analysis := Some(result);
          match generate(result) {
            case Ok(rule) => yaraRule := rule;
            case Err(message) => error := message;
          }
      }
      isLoading := false;
    }

    /** The selected model has the credentials its adapter needs. */
    predicate HasCredentials()
      reads this
    {
      match settings.selectedModel
      case Gemini => settings.geminiApiKey != []
      case DashScope => settings.dashscopeApiKey != []
      case Custom => settings.customModelUrl != [] && settings.customModelApiKey != []
    }

    /**
     * `isAnalyzeButtonDisabled`: disabled while loading, for a blank report,
     * or when the selected model lacks its key (custom: its URL or key).
     */
    function IsAnalyzeButtonDisabled(): (disabled: bool)
      reads this
      ensures !disabled <==> !isLoading && !AllSpace(report) && HasCredentials()
    {
      if isLoading || Trim(report) == [] then true
      else
        match settings.selectedModel
        case Gemini => settings.geminiApiKey == []
        case DashScope => settings.dashscopeApiKey == []
        case Custom => settings.customModelUrl == [] || settings.customModelApiKey == []
    }

    /** `getModelName`: the label shown for the selected model. */
    function ModelName(): (name: string)
      reads this
      ensures name == ModelLabel(settings.selectedModel)
      ensures name != []
    {
      ModelLabelsDistinct(settings.selectedModel, Gemini);
      ModelLabel(settings.selectedModel)
    }
  }

  function ModelLabel(model: AiModel): string
  {
    match model
    case Gemini => "Gemini"
    case DashScope => "通义千问"
    case Custom => "自定义模型"
  }

  /** Each model has its own, non-empty label. */
  lemma ModelLabelsDistinct(a: AiModel, b: AiModel)
    ensures ModelLabel(a) != []
    ensures a != b ==> ModelLabel(a) != ModelLabel(b)
  {
    assert ModelLabel(Gemini)[0] == 'G';
    assert ModelLabel(DashScope)[0] == '通';
    assert ModelLabel(Custom)[0] == '自';
  }

  /**
   * An enabled Analyze button means the selected HTTP adapter gets past its
   * credential check: it sends its request.
   */
  lemma EnabledAnalysisSends(demo: InteractiveDemo, reply: Http.Transport, parse: ChatApi.Parser)
    requires !demo.IsAnalyzeButtonDisabled()
    ensures demo.Dispatch().DashScopeCall? ==>
      DashScopeService.AnalyzeMalwareReport(demo.report, demo.Dispatch().apiKey, reply, parse).sent.Some?
    ensures demo.Dispatch().CustomCall? ==>
      CustomModelService.AnalyzeMalwareReport(demo.report, demo.Dispatch().url, demo.Dispatch().apiKey, reply, parse).sent.Some?
  {
  }
}
