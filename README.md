# Malware-analysis demo: VirusTotal report builder, AI adapters and demo workflow

This project models the core of a browser demo that turns a sample into a
YARA rule:

- the VirusTotal service hashes the uploaded file (SHA-256, lower-case hex),
  looks the digest up, and normalises the JSON answer into a plain-text
  behaviour report. The report has a process line, three de-duplicated
  sections (file system, registry and network) and a detection summary;
- three AI adapters (Gemini, DashScope and a custom OpenAI-compatible
  endpoint) embed that report in an analysis prompt, read a structured
  `AnalysisResult` back, and then ask for a YARA rule. The rule request names
  the rule, tags the author and lists the key indicators; markdown fences are
  stripped from the reply;
- the interactive demo component holds the workflow state (report, analysis,
  rule, loading flag, error, selected file, hash, input mode, model choice
  and keys). Its handlers reset, validate, look up, analyse and enable the
  Analyze button.

Modules, one per source file or shared concept:

| file | module | models |
|---|---|---|
| `basics.dfy` | `Basics` | `Option`/`Result`, `String.prototype.trim`, `join`, `String(number)`, infix reasoning |
| `json.dfy` | `Json`, `Http` | JSON values with JavaScript's optional chaining, truthiness, `String()`, `for…of`/`forEach`; HTTP responses and a request/result pair |
| `analysis_types.dfy` | `AnalysisTypes` | the `AnalysisResult` record |
| `hex_digest.dfy` | `HexDigest` | `bufferToHex`, `calculateFileHash` |
| `ordered_set.dfy` | `OrderedSets` | a JavaScript `Set<string>` (insertion order, no duplicates), as values and as the mutable `StringSet` class |
| `virus_total.dfy` | `VirusTotal` | `formatReportFromVTData` (imperative, over `StringSet` objects) and its specification `ReportOf`; `getVirusTotalReport` |
| `prompting.dfy` | `Prompting` | the report-embedding prompt, key-string selection, rule name, the rule prompt and fence stripping shared by the adapters |
| `chat_api.dfy` | `ChatApi` | the request the HTTP adapters post, tool-call acceptance and the two `catch` styles |
| `custom_model.dfy`, `dashscope.dfy`, `gemini.dfy` | one per adapter | credential checks, reply error detection, analysis and rule generation |
| `demo.dfy` | `Demo` | the `InteractiveDemo` component as a class whose handlers update its fields |

Every adapter call is a function from its inputs and the transport outcome to
an `Exchange`. An `Exchange` holds the request that was sent (`None` when a
credential check fails first) and the result or the thrown message.

## Model

| member | source | states |
|---|---|---|
| `HexDigest.ByteToHex` | services/virusTotalService.ts:4 | a byte becomes exactly two lower-case hex digits, high nibble first (`toString(16).padStart(2,'0')`) |
| `HexDigest.PadStart` | services/virusTotalService.ts:4 | the result is as long as the width (or the input when longer), ends with the input and is filled in front |
| `HexDigest.BufferToHex` | services/virusTotalService.ts:2-6 | the hex string is twice as long as the buffer and is all lower-case hex |
| `HexDigest.BufferToHexAt` | services/virusTotalService.ts:2-6 | characters 2i and 2i+1 are the hex of byte i |
| `HexDigest.BufferToHexRoundTrip` | services/virusTotalService.ts:2-6 | decoding the hex string gives back the bytes |
| `HexDigest.BufferToHexInjective` | services/virusTotalService.ts:2-6 | different buffers have different hex strings |
| `HexDigest.CalculateFileHash` | services/virusTotalService.ts:8-12 | the digest string has 64 lower-case hex digits and decodes to the SHA-256 of the content |
| `OrderedSets.Added` | services/virusTotalService.ts:30-33 | `set.add`: the element is present afterwards, nothing else is added, a present element changes nothing, a new one goes last |
| `OrderedSets.AddAllDistinct` | services/virusTotalService.ts:23-25 | a set never lists an element twice |
| `OrderedSets.AddAllMembers` | services/virusTotalService.ts:23-33 | the set holds exactly its old elements plus those added |
| `OrderedSets.AddAllAppend` | services/virusTotalService.ts:29-47 | adding two batches one after the other equals adding their concatenation |
| `OrderedSets.InsertionOrder` | services/virusTotalService.ts:52 | `[...set]` lists each added string once, ordered by where it was first added |
| `OrderedSets.StringSet.constructor` | services/virusTotalService.ts:23-25 | a new set is empty |
| `OrderedSets.StringSet.Add` | services/virusTotalService.ts:30 | the elements become `Added(old elements, x)` |
| `VirusTotal.ProcessName` | services/virusTotalService.ts:21 | the first name or 'Unknown': missing, null or empty names give Unknown; otherwise a truthy first name is used and a falsy one gives Unknown |
| `VirusTotal.RenderAll` | services/virusTotalService.ts:30-33 | rendering a list succeeds iff every item renders, and then line k is item k's rendering |
| `VirusTotal.RenderAllFailsEarly` | services/virusTotalService.ts:30-33 | once a prefix of the items throws, later items change nothing |
| `VirusTotal.CrowdsourcedFailsEarly` | services/virusTotalService.ts:29-34 | a behaviour that throws stops the loop: later behaviours are never read |
| `VirusTotal.ImportsFailEarly` | services/virusTotalService.ts:38-46 | an import entry that throws stops the loop over `import_list` |
| `VirusTotal.AddRendered` | services/virusTotalService.ts:30-33 | one `forEach(… set.add(…))`: it fails iff rendering fails, with the same message, and otherwise adds the rendered lines in order |
| `VirusTotal.AddBehavior` | services/virusTotalService.ts:30-33 | one crowdsourced entry: its written, dropped, registry and network lines are added to the three sets, or the entry's error is returned |
| `VirusTotal.AddImportedFunctions` | services/virusTotalService.ts:40-44 | only `socket`, `connect`, `send` and `recv` imports are added to the network set, in order |
| `VirusTotal.AddImports` | services/virusTotalService.ts:37-47 | only `ws2_32.dll` entries contribute; the network set grows by their import lines, or the failing entry's error is returned |
| `VirusTotal.AppendSection` | services/virusTotalService.ts:50-55 | appends the title, then the joined lines and a blank line, or the no-activity placeholder for an empty set |
| `VirusTotal.AppendSections` | services/virusTotalService.ts:50-69 | appends the file-system, registry and network sections in that order |
| `VirusTotal.AddCrowdsourced` | services/virusTotalService.ts:28-34 | the `for…of` over crowdsourced results fills the sets exactly as the value-level `Crowdsourced` says, or returns its error |
| `VirusTotal.FormatReportFromVTData` | services/virusTotalService.ts:15-73 | the imperative builder returns exactly `ReportOf(data)`, the report or the thrown TypeError |
| `VirusTotal.ReportTextFrame` | services/virusTotalService.ts:21-73 | a report starts with the `Process:` line and ends with the summary line |
| `VirusTotal.NoAttributesMessage` | services/virusTotalService.ts:16-19 | the "no attributes" text is returned iff `data?.data?.attributes` is falsy |
| `VirusTotal.QuietSampleReport` | services/virusTotalService.ts:28-71 | with no crowdsourced results and no import list, all three sections show the no-activity placeholder |
| `VirusTotal.CounterPrinted` | services/virusTotalService.ts:71 | a missing, null, zero or otherwise falsy counter prints as 0; a positive count prints as the decimal digits of that count |
| `VirusTotal.MissingStatisticsPrintZero` | services/virusTotalService.ts:71 | when all three counters are falsy (in particular when `last_analysis_stats` is missing), the summary prints 0 for harmless, malicious and suspicious |
| `VirusTotal.CrowdsourcedFailsAt` | services/virusTotalService.ts:29-34 | any throwing crowdsourced entry makes the whole loop throw |
| `VirusTotal.EntryWithoutAttributesFails` | services/virusTotalService.ts:29-30 | a crowdsourced entry without `attributes` makes formatting throw |
| `VirusTotal.ConnectionLinesAreNetworkLines` | services/virusTotalService.ts:33 | every rendered connection is a network line (a "connect to IP" line) |
| `VirusTotal.BehaviorNetworkLines` | services/virusTotalService.ts:33 | a behaviour contributes only connection lines to the network set |
| `VirusTotal.CrowdsourcedNetworkLines` | services/virusTotalService.ts:29-34 | all crowdsourced network contributions are network lines |
| `VirusTotal.ImportedLinesAreNetworkLines` | services/virusTotalService.ts:40-44 | each imported-function line names one of the four socket functions from `ws2_32.dll` |
| `VirusTotal.ImportedFunctionListed` | services/virusTotalService.ts:40-44 | every socket function in the import list gets its line |
| `VirusTotal.ImportsNetworkLines` | services/virusTotalService.ts:37-47 | everything the import list adds is a network line |
| `VirusTotal.OtherLibraryIgnored` | services/virusTotalService.ts:38-39 | an import entry for any library other than `ws2_32.dll` adds no line |
| `VirusTotal.NetworkSectionOrigin` | services/virusTotalService.ts:25-47 | every line of the network section is a connection or a socket-function import |
| `VirusTotal.NotFoundText` | services/virusTotalService.ts:98 | the not-found message contains the hash |
| `VirusTotal.LookupUrl` | services/virusTotalService.ts:85 | the URL is the files endpoint followed by the hash |
| `VirusTotal.GetVirusTotalReport` | services/virusTotalService.ts:77-108 | the request goes to the files endpoint plus the file's SHA-256; a 404 answers with the not-found text naming the digest; an OK, parsed reply answers with `ReportOf` of its body; every failure surfaces only as the fixed "cannot get report" message |
| `VirusTotal.NotFoundNamesTheDigest` | services/virusTotalService.ts:96-99 | a 404 succeeds with a message naming the file's digest |
| `VirusTotal.FailedStatusReported` | services/virusTotalService.ts:96-100 | any failing status other than 404 throws an error that starts with the API-error lead and contains the status number |
| `VirusTotal.FailureStatusIsLost` | services/virusTotalService.ts:100-107 | the inner error starts with the lead and contains the status, but any two failing statuses give the same outer error |
| `Basics.Trim` | services/geminiService.ts:61 | `trim()`: empty iff the input is all whitespace, no whitespace at either end, a contiguous slice of the input |
| `Basics.TrimOfNonSpaceEnds` | services/customModelService.ts:146 | text with no whitespace at either end is its own trim, so trimming twice changes nothing |
| `Basics.IntToString` | services/virusTotalService.ts:100 | the decimal rendering of a status is non-empty and starts with '-' iff it is negative |
| `Basics.NatToStringValue` | services/virusTotalService.ts:71 | the digits `String(n)` prints for a non-negative `n` denote `n` |
| `Basics.IntToStringValue` | services/virusTotalService.ts:100 | `String(n)` is the decimal of `n`, after a minus sign exactly when `n` is negative |
| `Basics.IntToStringInjective` | services/virusTotalService.ts:100 | different statuses print differently |
| `Prompting.ReportPrompt` | services/customModelService.ts:73 | the prompt is the instruction, a blank line, the begin marker, the report verbatim, then the end marker |
| `Prompting.ReportPromptRoundTrip` | services/dashscopeService.ts:75 | the report can be read back out of the prompt |
| `Prompting.ReportPromptInjective` | services/geminiService.ts:54 | different reports give different prompts |
| `Prompting.LongStrings` | services/customModelService.ts:114 | `filter(s => s && s.length > 5)` keeps only strings longer than five |
| `Prompting.LongStringsMembers` | services/customModelService.ts:114 | a string survives iff it was present and is longer than five |
| `Prompting.LongStringsAppend` | services/customModelService.ts:110-114 | filtering a concatenation filters each part |
| `Prompting.LongStringsCount` | services/customModelService.ts:114 | a long string is kept as often as it occurs; a short one never |
| `Prompting.KeyStrings` | services/customModelService.ts:110-114 | every key string is longer than five characters |
| `Prompting.KeyStringsSelection` | services/dashscopeService.ts:112-116 | key strings are the long files, then registry keys, then domains; IPs are never key strings |
| `Prompting.ReplaceSpaceRuns` | services/customModelService.ts:118 | `replace(/\s+/g,'_')`: no whitespace remains, empty iff the input is empty, space-free input is unchanged |
| `Prompting.SpaceRunBecomesOneUnderscore` | services/customModelService.ts:118 | a whole whitespace run becomes one underscore |
| `Prompting.ReplaceSpaceRunsSplit` | services/customModelService.ts:118 | text ending in a non-space is replaced independently of what follows, so non-space text between runs stays in place |
| `Prompting.TrimStartDropsRun` | services/customModelService.ts:118 | one `\s+` match consumes the whole leading whitespace run, up to the first non-space |
| `Prompting.SpaceOnlyLabel` | services/geminiService.ts:78 | an all-space family guess becomes "_" |
| `Prompting.PrefixedNoSpace` | services/dashscopeService.ts:120 | the prefixed name has no whitespace |
| `Prompting.RuleName` | services/customModelService.ts:118 | `Suspicious_` plus the guess with whitespace runs as underscores; an empty guess gives `Suspicious_Behavior`; the name has no whitespace |
| `Prompting.BulletLines` | services/customModelService.ts:124 | line k is "- " followed by key string k |
| `Prompting.JoinHasEach` | services/customModelService.ts:124 | each joined element occurs in the joined text |
| `Prompting.BulletsHaveEach` | services/dashscopeService.ts:126 | each key string appears as a bullet in the prompt's list |
| `Prompting.RulePrompt` | services/customModelService.ts:116-127 | the rule prompt contains the name line, the author tag, the summary line and a bullet for every key string, and ends with exactly the indicator heading, the `- s` bullets of the key strings joined by newlines (no other bullet), and the closing request |
| `Prompting.RemoveFencesOptionalTag` | services/customModelService.ts:145-146 | removing fences with an optional `yara` tag never lengthens the text |
| `Prompting.FenceRegexesAgree` | services/geminiService.ts:97 | Gemini's alternation regex (tagged fence or bare fence) removes exactly what the optional-tag regex of the other adapters removes |
| `Prompting.NoLeadingDoubleTick` | services/customModelService.ts:145-146 | removal never creates a double backtick at the start |
| `Prompting.RemovalLeavesNoFence` | services/dashscopeService.ts:144-145 | no triple backtick survives the global replacement |
| `Prompting.NoFenceInSlice` | services/dashscopeService.ts:145 | a fence-free text stays fence-free when trimmed |
| `Prompting.RemovalKeepsPlainPrefix` | services/customModelService.ts:145-146 | text before the first backtick is kept unchanged |
| `Prompting.RemovalKeepsPlainText` | services/customModelService.ts:145-146 | text without backticks is left unchanged |
| `Prompting.StripFences` | services/customModelService.ts:145-146 | the cleaned rule has no fence and no surrounding whitespace; without backticks it is just the trimmed text |
| `Prompting.StripFencesGeminiForm` | services/geminiService.ts:95-98 | Gemini's cleaning equals the shared `StripFences` |
| `Prompting.StripFencesOfFencedRule` | services/customModelService.ts:145-146 | a backtick-free rule inside a yara fence comes back trimmed |
| `Prompting.StripFencesExample` | services/dashscopeService.ts:144-145 | "```yara\n" + rule + "\n```" comes back as the rule |
| `ChatApi.CalledArguments` | services/customModelService.ts:98-102 | a non-function tool call gives the "not called" error; otherwise the result is the parse of `function.arguments` |
| `ChatApi.WithLead` | services/customModelService.ts:103-106 | a failure is re-raised as the lead followed by the inner message; success passes through |
| `ChatApi.Replaced` | services/dashscopeService.ts:105-108 | a failure is re-raised with a fixed message; success passes through |
| `CustomModelService.CheckedReply` | services/customModelService.ts:59-69 | the reply is accepted iff the status is OK, the body parses and `error` is falsy; then it is the body |
| `CustomModelService.CallCustomApi` | services/customModelService.ts:45-70 | nothing is sent iff the URL or key is empty (then the missing-endpoint error); otherwise the request is posted to the URL with the key and the reply is checked |
| `CustomModelService.FailedStatusReported` | services/customModelService.ts:59-63 | a failing status throws a message containing the status number |
| `CustomModelService.ErrorFieldReported` | services/customModelService.ts:65-68 | a truthy `error` throws a message containing `error.message` |
| `CustomModelService.AnalyzeMalwareReport` | services/customModelService.ts:72-107 | the report is embedded verbatim in the prompt; success iff sent, accepted and the first tool call parses; every failure is the analysis-failed lead followed by the inner message (missing endpoint, rejected reply, or no function call / parse failure) |
| `CustomModelService.NoFunctionCallFails` | services/customModelService.ts:98-102 | an accepted reply without a function call fails with the lead plus the "not called" message |
| `CustomModelService.RuleFromContent` | services/customModelService.ts:141-146 | falsy content throws "no generated code"; string content becomes the fence-stripped rule |
| `CustomModelService.GenerateYaraRule` | services/customModelService.ts:109-151 | the prompt names the rule, tags "Custom AI Analyst", carries the summary and ends with exactly the key-string bullets and the closing request (it is `RulePrompt`); success iff the reply is accepted and has content; every failure is the rule-failed lead followed by the inner message (missing endpoint, rejected reply, or missing content) |
| `CustomModelService.FencedReplyYieldsRule` | services/customModelService.ts:141-146 | a fenced reply yields the bare rule |
| `DashScopeService.CheckedReply` | services/dashscopeService.ts:62-71 | the reply is accepted iff the status is OK, the body parses and `code` is falsy |
| `DashScopeService.CodeReported` | services/dashscopeService.ts:67-69 | a truthy `code` throws a message containing both the message and the code |
| `DashScopeService.CallDashScopeApi` | services/dashscopeService.ts:48-72 | nothing is sent iff the key is empty; otherwise the request goes to the fixed endpoint with the key and the reply is checked |
| `DashScopeService.AnalyzeMalwareReport` | services/dashscopeService.ts:74-109 | the report is embedded verbatim; success iff sent, accepted and `output.tool_calls[0]` parses; every failure is the one fixed message |
| `DashScopeService.AnalysisFailuresIndistinguishable` | services/dashscopeService.ts:105-108 | any two analysis failures give the same error |
| `DashScopeService.RuleFromText` | services/dashscopeService.ts:143-145 | a string `output.text` becomes the fence-stripped rule, anything else throws |
| `DashScopeService.GenerateYaraRule` | services/dashscopeService.ts:111-150 | the prompt names the rule, tags "Qwen AI Analyst", carries the summary and ends with exactly the key-string bullets and the closing request (it is `RulePrompt`); success iff accepted with string text; every failure is the one fixed message |
| `DashScopeService.EmptyTextGivesEmptyRule` | services/dashscopeService.ts:143-145 | an empty `output.text` is not rejected: the rule is empty |
| `GeminiService.AnalyzeMalwareReport` | services/geminiService.ts:50-67 | the report is embedded verbatim; the result is the parse of the trimmed text; every failure is the one fixed message |
| `GeminiService.SurroundingSpaceIgnored` | services/geminiService.ts:61-62 | replies differing only in surrounding whitespace give the same analysis |
| `GeminiService.GenerateYaraRule` | services/geminiService.ts:69-103 | the prompt names the rule, tags "Gemini AI Analyst", carries the summary and ends with exactly the key-string bullets and the closing request (it is `RulePrompt`); a text reply gives its fence-stripped text; failures are the one fixed message |
| `Demo.InteractiveDemo.constructor` | components/InteractiveDemo.tsx:18-38 | initial state: all empty, upload mode, Gemini selected, not loading |
| `Demo.InteractiveDemo.ResetState` | components/InteractiveDemo.tsx:40-47 | report, analysis, rule, error, hash and file are emptied; everything else keeps its value |
| `Demo.InteractiveDemo.HandleFileUpload` | components/InteractiveDemo.tsx:49-71 | reset and select the file first; without a VirusTotal key only the error is set; otherwise the digest is shown and looked up, and the report or the error is stored; loading ends false |
| `Demo.InteractiveDemo.HandleHashQuery` | components/InteractiveDemo.tsx:73-96 | a blank hash, then a missing key, only set the error and change nothing else; otherwise the trimmed hash is shown and looked up; a rule still has its analysis |
| `Demo.InteractiveDemo.LookUpHash` | components/InteractiveDemo.tsx:83-95 | after validation: reset, show the hash, then store the report or the error |
| `Demo.InteractiveDemo.ClearSelection` | components/InteractiveDemo.tsx:132-139 | reset, empty the typed hash, back to upload mode; the file input is cleared only when it was rendered |
| `Demo.InteractiveDemo.Dispatch` | components/InteractiveDemo.tsx:151-163 | each model is sent to its own adapter with its own key (custom: URL and key) |
| `Demo.InteractiveDemo.HandleAnalysis` | components/InteractiveDemo.tsx:141-171 | analysis and rule are cleared first; the analysis is stored before the rule is generated, so a failed rule keeps it; a rule never appears without its analysis |
| `Demo.InteractiveDemo.IsAnalyzeButtonDisabled` | components/InteractiveDemo.tsx:173-181 | enabled iff not loading, the report is not blank and the selected model has its credentials |
| `Demo.InteractiveDemo.ModelName` | components/InteractiveDemo.tsx:183-190 | the label of the selected model, never empty |
| `Demo.ModelLabelsDistinct` | components/InteractiveDemo.tsx:183-190 | the three labels are non-empty and pairwise different |
| `Demo.EnabledAnalysisSends` | components/InteractiveDemo.tsx:173-181 | an enabled button means the DashScope or custom adapter passes its credential check and sends |

## Left out

- The network (`fetch`), the Gemini SDK and `crypto.subtle.digest` are not
  called. Their outcomes are parameters: an HTTP `Transport` or a Gemini
  `Reply`, and a SHA-256 function from bytes to a 32-byte digest.
- `JSON.parse(…) as AnalysisResult` is a `Parser` parameter. The cast checks
  nothing, and the parser's own behaviour is not modelled.
- `CustomModelService.GenerateYaraRule`, `DashScopeService.GenerateYaraRule`
  and `GeminiService.GenerateYaraRule` take a well-typed `AnalysisResult`.
  In the source the unchecked cast can hand them a record with, say, no
  `indicators_of_compromise` or a non-string `malware_family_guess`. Building
  the key strings and the rule name then throws a raw TypeError before the
  `try` (services/customModelService.ts:110-118,
  services/dashscopeService.ts:112-120, services/geminiService.ts:70-78).
  That error escapes without the lead or the fixed message, so the
  "failures start with the lead" and "one fixed message" clauses hold only
  for well-typed records.
- The start-up environment checks are not modelled: the missing `API_KEY` at
  services/geminiService.ts:4-6 and the missing `VIRUSTOTAL_API_KEY` at
  services/virusTotalService.ts:80-82. The VirusTotal key header is not
  modelled either.
- The fixed parts of each request body are not modelled: model name, system
  message, tool schema, `tool_choice` and temperature. Only URL, key and user
  prompt are. The fixed lines of the rule prompt are not checked word for
  word.
- Console logging is left out. The `response.text()` read of an error body
  (services/customModelService.ts:60) is assumed to succeed. If that read
  failed, its error would replace the status-bearing API error, and
  `CustomModelService.FailedStatusReported` would no longer describe what is
  thrown.
- Asynchrony, and the interleaving of handlers while a call is pending, are
  left out. Each handler runs start to finish with the awaited outcomes as
  inputs. The constructor sets `isLoading` false. Every handler either
  keeps its old value or ends with it false, so no state a sequence of
  handlers reaches has `isLoading` true. The "not loading" condition of
  `IsAnalyzeButtonDisabled` and the guard against re-entry while loading
  are therefore never exercised in the model.
- Rendering, drag-and-drop handlers, `isDragging`, `triggerFileSelect`, the
  form setters, the rest of the components, `constants.ts`, `App.tsx` and
  the Vite configuration are not part of this model.
- The demo calls the services with signatures that do not match them:
  `getVirusTotalReport(hash, key)`, `formatVirusTotalReport` and Gemini
  calls with a key (components/InteractiveDemo.tsx:63-64, 88-89, 152, 154).
  `HandleFileUpload`, `HandleHashQuery` and `HandleAnalysis` therefore take
  the lookup and analysis outcomes as abstract `Result`s. They are not
  composed with the service models.
- The `'未知错误'` and `'发生未知错误。'` fallbacks for non-`Error` throws are
  not modelled. Every failure in the model is an `Error` with a message.
- JavaScript numbers are integers here (`JNum(int)`). String lengths count
  code points rather than UTF-16 units. Whitespace is the ECMAScript
  white-space and line-terminator list, with the space separators of one
  Unicode version written out.
- The message of a JavaScript `TypeError` (reading a property of
  `undefined`/`null`, or calling `forEach` on a non-array) is one fixed
  placeholder text. Only the fact that it throws, and where, is modelled.
- `VirusTotal.EntryWithoutAttributesFails` states only that formatting
  fails, not the exact message. This is because the message is the
  placeholder above. The code throws here
  (services/virusTotalService.ts:30); the model follows the code.
- `Demo.EnabledAnalysisSends` covers only the two HTTP adapters. The Gemini
  adapter takes no key and always sends.
