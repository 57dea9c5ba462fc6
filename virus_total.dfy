/**
 * The VirusTotal side of the pipeline: the file report the normaliser
 * builds from a VirusTotal v3 file object (header, three activity sections
 * fed through insertion-ordered sets, and the detection summary), and the
 * status handling of the lookup.
 *
 * `ReportOf` is the specification of the normaliser as one expression;
 * `FormatReportFromVTData` builds the same text the way the service does,
 * filling three `StringSet` objects in loops and extending the report
 * section by section.
 */
module VirusTotal {
  import opened Basics
  import opened Json
  import opened Http
  import opened HexDigest
  import opened OrderedSets

  const NoAttributesText: string := "在 VirusTotal 响应中未找到任何属性。"
  const ProcessLead: string := "Process: "
  const UnknownProcess: string := "Unknown"
  const FileSystemTitle: string := "[文件系统活动]\n"
  const RegistryTitle: string := "[注册表活动]\n"
  const NetworkTitle: string := "[网络活动]\n"
  const NoActivity: string := "- 未检测到重要活动。\n\n"
  const SummaryTitle: string := "[分析摘要]\n"
  const ConnectionLead: string := "- 连接到 IP: "
  const NetworkLibrary: string := "ws2_32.dll"
  const NetworkFunctions: seq<string> := ["socket", "connect", "send", "recv"]

  // ---------------------------------------------------------------------
  // Reading the file object

  /** `data?.data?.attributes` */
  function Attributes(data: Json): Option<Json>
  {
    OptMember(OptMember(Some(data), "data"), "attributes")
  }

  /** `o || []` */
  function OrEmpty(o: Option<Json>): Json
  {
    if Truthy(o) then o.value else JArr([])
  }

  /** `attributes.names?.[0] || 'Unknown'` */
  function ProcessName(attributes: Json): (r: string)
    ensures Nullish(Prop(attributes, "names")) ==> r == UnknownProcess
    ensures Prop(attributes, "names") == Some(JArr([])) ==> r == UnknownProcess
    ensures forall names: seq<Json> :: Prop(attributes, "names") == Some(JArr(names)) && names != [] ==>
      r == (if Truthy(Some(names[0])) then ValueToString(names[0]) else UnknownProcess)
  {
    var names := Prop(attributes, "names");
    var first := OptIndex(names, 0);
    if Truthy(first) then ToJsString(first) else UnknownProcess
  }

  function ProcessLine(attributes: Json): string
  {
    ProcessLead + ProcessName(attributes) + "\n\n"
  }

  /** `attributes.last_analysis_stats?.<key> || 0`, as the template literal prints it. */
  function Counter(attributes: Json, key: string): string
  {
    var v := OptMember(Prop(attributes, "last_analysis_stats"), key);
    if Truthy(v) then ToJsString(v) else "0"
  }

  function SummaryLine(attributes: Json): string
  {
    SummaryTitle + "- 无害: " + Counter(attributes, "harmless") + ", 恶意: " + Counter(attributes, "malicious")
      + ", 可疑: " + Counter(attributes, "suspicious")
  }

  // ---------------------------------------------------------------------
  // Activity lines

  function WrittenLine(f: Json): Result<string>
  {
    Ok("- 创建文件: " + ValueToString(f))
  }

  /** `f.filename` and `f.sha256` throw when the entry is null. */
  function DroppedLine(f: Json): Result<string>
  {
    if f == JNull then Err(TypeErrorMessage)
    else Ok("- 释放文件: " + ToJsString(Prop(f, "filename")) + " (SHA256: " + ToJsString(Prop(f, "sha256")) + ")")
  }

  function RegistryLine(r: Json): Result<string>
  {
    Ok("- 设置注册表项: " + ValueToString(r))
  }

  function ConnectionLine(n: Json): Result<string>
  {
    if n == JNull then Err(TypeErrorMessage) else Ok(ConnectionLead + ConnectionDetails(n))
  }

  function ConnectionDetails(n: Json): string
  {
    ToJsString(Prop(n, "destination_ip")) + " 端口 " + ToJsString(Prop(n, "destination_port"))
      + " (" + ToJsString(Prop(n, "transport_layer_protocol")) + ")"
  }

  /** The lines for `items`, in order; the first item that cannot be rendered stops the walk. */
  function RenderAll(items: seq<Json>, render: Json -> Result<string>): (r: Result<seq<string>>)
    ensures r.Ok? <==> forall k :: 0 <= k < |items| ==> render(items[k]).Ok?
    ensures r.Ok? ==> |r.value| == |items| && forall k :: 0 <= k < |items| ==> r.value[k] == render(items[k]).value
  {
    if items == [] then Ok([])
    else
      var init := items[..|items| - 1];
      assert forall k :: 0 <= k < |init| ==> init[k] == items[k];
      match RenderAll(init, render)
      case Err(e) => Err(e)
      case Ok(lines) =>
        match render(items[|items| - 1])
        case Err(e) => Err(e)
        case Ok(line) => Ok(lines + [line])
  }

  lemma {:induction false} RenderAllFailsEarly(items: seq<Json>, render: Json -> Result<string>, n: nat)
    requires n <= |items| && RenderAll(items[..n], render).Err?
    ensures RenderAll(items, render) == RenderAll(items[..n], render)
    decreases |items|
  {
    if n < |items| {
      var init := items[..|items| - 1];
      assert init[..n] == items[..n];
      RenderAllFailsEarly(init, render, n);
    } else {
      assert items[..n] == items;
    }
  }

  /** `(a.<key> || [])`, the list a `forEach` walks; a TypeError when `a` is null or undefined or the value is not an array. */
  function Listed(a: Option<Json>, key: string): Result<seq<Json>>
  {
    match Member(a, key)
    case Err(e) => Err(e)
    case Ok(v) => ForEachOrEmpty(v)
  }

  function Rendered(a: Option<Json>, key: string, render: Json -> Result<string>): Result<seq<string>>
  {
    match Listed(a, key)
    case Err(e) => Err(e)
    case Ok(items) => RenderAll(items, render)
  }

  /** The lines each section receives, in the order they are added to its set. */
  datatype Activity = Activity(fileSystem: seq<string>, registry: seq<string>, network: seq<string>)

  /** One entry of `crowdsourced_ids_results`. */
  function BehaviorActivity(behavior: Json): Result<Activity>
  {
    match Member(Some(behavior), "attributes")
    case Err(e) => Err(e)
    case Ok(a) =>
      match Rendered(a, "files_written", WrittenLine)
      case Err(e) => Err(e)
      case Ok(written) =>
        match Rendered(a, "files_dropped", DroppedLine)
        case Err(e) => Err(e)
        case Ok(dropped) =>
          match Rendered(a, "registry_keys_set", RegistryLine)
          case Err(e) => Err(e)
          case Ok(keys) =>
            match Rendered(a, "network_communications", ConnectionLine)
            case Err(e) => Err(e)
            case Ok(connections) => Ok(Activity(written + dropped, keys, connections))
  }

  function Merge(a: Activity, b: Activity): Activity
  {
    Activity(a.fileSystem + b.fileSystem, a.registry + b.registry, a.network + b.network)
  }

  /** All crowdsourced entries, in order. */
  function Crowdsourced(behaviors: seq<Json>): Result<Activity>
  {
    if behaviors == [] then Ok(Activity([], [], []))
    else
      match Crowdsourced(behaviors[..|behaviors| - 1])
      case Err(e) => Err(e)
      case Ok(acc) =>
        match BehaviorActivity(behaviors[|behaviors| - 1])
        case Err(e) => Err(e)
        case Ok(b) => Ok(Merge(acc, b))
  }

  lemma {:induction false} CrowdsourcedFailsEarly(behaviors: seq<Json>, n: nat)
    requires n <= |behaviors| && Crowdsourced(behaviors[..n]).Err?
    ensures Crowdsourced(behaviors) == Crowdsourced(behaviors[..n])
    decreases |behaviors|
  {
    if n < |behaviors| {
      var init := behaviors[..|behaviors| - 1];
      assert init[..n] == behaviors[..n];
      CrowdsourcedFailsEarly(init, n);
    } else {
      assert behaviors[..n] == behaviors;
    }
  }

  /** `['socket', 'connect', 'send', 'recv'].includes(func)` */
  predicate IsNetworkFunction(func: Json)
  {
    func.JStr? && func.s in NetworkFunctions
  }

  function ImportLine(name: string): string
  {
    "- 导入网络函数: " + name + " from " + NetworkLibrary
  }

  /** The lines one `ws2_32.dll` import adds: one per listed networking function. */
  function ImportedNetworkLines(funcs: seq<Json>): seq<string>
  {
    if funcs == [] then []
    else
      var last := funcs[|funcs| - 1];
      ImportedNetworkLines(funcs[..|funcs| - 1]) + (if IsNetworkFunction(last) then [ImportLine(last.s)] else [])
  }

  /** One entry of `pe_info.import_list`: only `ws2_32.dll` contributes lines. */
  function ImportActivity(imp: Json): Result<seq<string>>
  {
    match Member(Some(imp), "library_name")
    case Err(e) => Err(e)
    case Ok(library) =>
      if library != Some(JStr(NetworkLibrary)) then Ok([])
      else
        match ForEach(Prop(imp, "imported_functions"))
        case Err(e) => Err(e)
        case Ok(funcs) => Ok(ImportedNetworkLines(funcs))
  }

  /** All imports, in order. */
  function ImportsActivity(imports: seq<Json>): Result<seq<string>>
  {
    if imports == [] then Ok([])
    else
      match ImportsActivity(imports[..|imports| - 1])
      case Err(e) => Err(e)
      case Ok(acc) =>
        match ImportActivity(imports[|imports| - 1])
        case Err(e) => Err(e)
        case Ok(lines) => Ok(acc + lines)
  }

  lemma {:induction false} ImportsFailEarly(imports: seq<Json>, n: nat)
    requires n <= |imports| && ImportsActivity(imports[..n]).Err?
    ensures ImportsActivity(imports) == ImportsActivity(imports[..n])
    decreases |imports|
  {
    if n < |imports| {
      var init := imports[..|imports| - 1];
      assert init[..n] == imports[..n];
      ImportsFailEarly(init, n);
    } else {
      assert imports[..n] == imports;
    }
  }

  /** `attributes.pe_info?.import_list` */
  function ImportList(attributes: Json): Option<Json>
  {
    OptMember(Prop(attributes, "pe_info"), "import_list")
  }

  /** Everything the three sets receive, in insertion order. */
  function Collected(attributes: Json): Result<Activity>
  {
    match ForOf(Some(OrEmpty(Prop(attributes, "crowdsourced_ids_results"))))
    case Err(e) => Err(e)
    case Ok(behaviors) =>
      match Crowdsourced(behaviors)
      case Err(e) => Err(e)
      case Ok(act) =>
        if !Truthy(ImportList(attributes)) then Ok(act)
        else
          match ForOf(ImportList(attributes))
          case Err(e) => Err(e)
          case Ok(imports) =>
            match ImportsActivity(imports)
            case Err(e) => Err(e)
            case Ok(lines) => Ok(act.(network := act.network + lines))
  }

  /** One bracketed section: its title, then its lines or the placeholder. */
  function Section(title: string, elements: seq<string>): string
  {
    title + if |elements| > 0 then Join(elements, "\n") + "\n\n" else NoActivity
  }

  /** The three sections, each over its set's elements in insertion order. */
  function Sections(fileSystem: seq<string>, registry: seq<string>, network: seq<string>): string
  {
    Section(FileSystemTitle, fileSystem) + Section(RegistryTitle, registry) + Section(NetworkTitle, network)
  }

  function ReportText(attributes: Json, act: Activity): string
  {
    ProcessLine(attributes) + Sections(AddAll([], act.fileSystem), AddAll([], act.registry), AddAll([], act.network))
      + SummaryLine(attributes)
  }

  /** `formatReportFromVTData` as a single expression; a thrown TypeError is `Err`. */
  function ReportOf(data: Json): Result<string>
  {
    var attributes := Attributes(data);
    if !Truthy(attributes) then Ok(NoAttributesText)
    else
      match Collected(attributes.value)
      case Err(e) => Err(e)
      case Ok(act) => Ok(ReportText(attributes.value, act))
  }

  // ---------------------------------------------------------------------
  // The report builder, step by step

  /** `items.forEach(x => target.add(render(x)))` */
  method AddRendered(target: StringSet, items: seq<Json>, render: Json -> Result<string>) returns (err: Option<string>)
    modifies target
    ensures err == None <==> RenderAll(items, render).Ok?
    ensures err.Some? ==> RenderAll(items, render) == Err(err.value)
    ensures err == None ==> target.elements == AddAll(old(target.elements), RenderAll(items, render).value)
  {
    var j := 0;
    while j < |items|
      invariant 0 <= j <= |items|
      invariant RenderAll(items[..j], render).Ok?
      invariant target.elements == AddAll(old(target.elements), RenderAll(items[..j], render).value)
    {
      var line := render(items[j]);
      assert items[..j + 1][..j] == items[..j];
      if line.Err? {
        RenderAllFailsEarly(items, render, j + 1);
        return Some(line.message);
      }
      target.Add(line.value);
      j := j + 1;
    }
    assert items[..j] == items;
    return None;
  }

  /** The four `forEach` statements for one crowdsourced entry. */
  method AddBehavior(behavior: Json, fileSystem: StringSet, registry: StringSet, network: StringSet)
    returns (err: Option<string>)
    requires fileSystem != registry && fileSystem != network && registry != network
    modifies fileSystem, registry, network
    ensures err == None <==> BehaviorActivity(behavior).Ok?
    ensures err.Some? ==> BehaviorActivity(behavior) == Err(err.value)
    ensures err == None ==>
      fileSystem.elements == AddAll(old(fileSystem.elements), BehaviorActivity(behavior).value.fileSystem) &&
      registry.elements == AddAll(old(registry.elements), BehaviorActivity(behavior).value.registry) &&
      network.elements == AddAll(old(network.elements), BehaviorActivity(behavior).value.network)
  {
    var a := Member(Some(behavior), "attributes");
    if a.Err? {
      return Some(a.message);
    }
    var written := Listed(a.value, "files_written");
    if written.Err? {
      return Some(written.message);
    }
    err := AddRendered(fileSystem, written.value, WrittenLine);
    if err.Some? {
      return;
    }
    var dropped := Listed(a.value, "files_dropped");
    if dropped.Err? {
      return Some(dropped.message);
    }
    err := AddRendered(fileSystem, dropped.value, DroppedLine);
    if err.Some? {
      return;
    }
    var keys := Listed(a.value, "registry_keys_set");
    if keys.Err? {
      return Some(keys.message);
    }
    err := AddRendered(registry, keys.value, RegistryLine);
    if err.Some? {
      return;
    }
    var connections := Listed(a.value, "network_communications");
    if connections.Err? {
      return Some(connections.message);
    }
    err := AddRendered(network, connections.value, ConnectionLine);
    if err.Some? {
      return;
    }
    AddAllAppend(old(fileSystem.elements), RenderAll(written.value, WrittenLine).value,
      RenderAll(dropped.value, DroppedLine).value);
  }

  /** The `forEach` over a `ws2_32.dll` import's functions. */
  method AddImportedFunctions(funcs: seq<Json>, network: StringSet)
    modifies network
    ensures network.elements == AddAll(old(network.elements), ImportedNetworkLines(funcs))
  {
    var j := 0;
    while j < |funcs|
      invariant 0 <= j <= |funcs|
      invariant network.elements == AddAll(old(network.elements), ImportedNetworkLines(funcs[..j]))
    {
      var func := funcs[j];
      var done := ImportedNetworkLines(funcs[..j]);
      assert funcs[..j + 1][..j] == funcs[..j] && funcs[..j + 1][j] == func;
      if IsNetworkFunction(func) {
        network.Add(ImportLine(func.s));
        assert ImportedNetworkLines(funcs[..j + 1]) == done + [ImportLine(func.s)];
        AddAllAppend(old(network.elements), done, [ImportLine(func.s)]);
      } else {
        assert ImportedNetworkLines(funcs[..j + 1]) == done + [];
        assert done + [] == done;
      }
      j := j + 1;
    }
    assert funcs[..j] == funcs;
  }

  /** The `for ... of` over the import list. */
  method AddImports(imports: seq<Json>, network: StringSet) returns (err: Option<string>)
    modifies network
    ensures err == None <==> ImportsActivity(imports).Ok?
    ensures err.Some? ==> ImportsActivity(imports) == Err(err.value)
    ensures err == None ==> network.elements == AddAll(old(network.elements), ImportsActivity(imports).value)
  {
    var i := 0;
    while i < |imports|
      invariant 0 <= i <= |imports|
      invariant ImportsActivity(imports[..i]).Ok?
      invariant network.elements == AddAll(old(network.elements), ImportsActivity(imports[..i]).value)
    {
      var imp := imports[i];
      var done := ImportsActivity(imports[..i]).value;
      assert imports[..i + 1][..i] == imports[..i] && imports[..i + 1][i] == imp;
      var library := Member(Some(imp), "library_name");
      if library.Err? {
        ImportsFailEarly(imports, i + 1);
        return Some(library.message);
      }
      if library.value == Some(JStr(NetworkLibrary)) {
        var funcs := ForEach(Prop(imp, "imported_functions"));
        if funcs.Err? {
          ImportsFailEarly(imports, i + 1);
          return Some(funcs.message);
        }
        AddImportedFunctions(funcs.value, network);
        assert ImportsActivity(imports[..i + 1]).value == done + ImportedNetworkLines(funcs.value);
        AddAllAppend(old(network.elements), done, ImportedNetworkLines(funcs.value));
      } else {
        assert ImportsActivity(imports[..i + 1]).value == done + [];
        assert done + [] == done;
      }
      i := i + 1;
    }
    assert imports[..i] == imports;
    return None;
  }

  /** Appends one section the way the builder does: title, then lines or placeholder. */
  method AppendSection(report: string, title: string, section: StringSet) returns (r: string)
    ensures r == report + Section(title, section.elements)
  {
    r := report + title;
    if section.Size() > 0 {
      r := r + (Join(section.elements, "\n") + "\n\n");
    } else {
      r := r + NoActivity;
    }
  }

  /** The `for ... of` over the crowdsourced entries. */
  method AddCrowdsourced(behaviors: seq<Json>, fileSystem: StringSet, registry: StringSet, network: StringSet)
    returns (err: Option<string>)
    requires fileSystem != registry && fileSystem != network && registry != network
    modifies fileSystem, registry, network
    ensures err == None <==> Crowdsourced(behaviors).Ok?
    ensures err.Some? ==> Crowdsourced(behaviors) == Err(err.value)
    ensures err == None ==>
      fileSystem.elements == AddAll(old(fileSystem.elements), Crowdsourced(behaviors).value.fileSystem) &&
      registry.elements == AddAll(old(registry.elements), Crowdsourced(behaviors).value.registry) &&
      network.elements == AddAll(old(network.elements), Crowdsourced(behaviors).value.network)
  {
    var i := 0;
    while i < |behaviors|
      invariant 0 <= i <= |behaviors|
      invariant Crowdsourced(behaviors[..i]).Ok?
      invariant fileSystem.elements == AddAll(old(fileSystem.elements), Crowdsourced(behaviors[..i]).value.fileSystem)
      invariant registry.elements == AddAll(old(registry.elements), Crowdsourced(behaviors[..i]).value.registry)
      invariant network.elements == AddAll(old(network.elements), Crowdsourced(behaviors[..i]).value.network)
    {
      var behavior := behaviors[i];
      assert behaviors[..i + 1][..i] == behaviors[..i] && behaviors[..i + 1][i] == behavior;
      var acc := Crowdsourced(behaviors[..i]).value;
      err := AddBehavior(behavior, fileSystem, registry, network);
      if err.Some? {
        CrowdsourcedFailsEarly(behaviors, i + 1);
        return;
      }
      var b := BehaviorActivity(behavior).value;
      assert Crowdsourced(behaviors[..i + 1]) == Ok(Merge(acc, b));
      AddAllAppend(old(fileSystem.elements), acc.fileSystem, b.fileSystem);
      AddAllAppend(old(registry.elements), acc.registry, b.registry);
      AddAllAppend(old(network.elements), acc.network, b.network);
      i := i + 1;
    }
    assert behaviors[..i] == behaviors;
    return None;
  }

  lemma AppendGrouped(a: string, b: string, c: string, d: string)
    ensures a + b + c + d == a + (b + c + d)
  {
  }

  /** The three section blocks, in their fixed order. */
  method AppendSections(report: string, fileSystem: StringSet, registry: StringSet, network: StringSet)
    returns (r: string)
    ensures r == report + Sections(fileSystem.elements, registry.elements, network.elements)
  {
    r := AppendSection(report, FileSystemTitle, fileSystem);
    r := AppendSection(r, RegistryTitle, registry);
    r := AppendSection(r, NetworkTitle, network);
    var s1, s2, s3 := Section(FileSystemTitle, fileSystem.elements), Section(RegistryTitle, registry.elements),
      Section(NetworkTitle, network.elements);
    AppendGrouped(report, s1, s2, s3);
  }

  /** `formatReportFromVTData`; `Err` is the TypeError it throws. */
  method FormatReportFromVTData(data: Json) returns (r: Result<string>)
    ensures r == ReportOf(data)
  {
    var attributes := Attributes(data);
    if !Truthy(attributes) {
      return Ok(NoAttributesText);
    }
    var attrs := attributes.value;
    var report := ProcessLine(attrs);
    var fileSystem := new StringSet();
    var registry := new StringSet();
    var network := new StringSet();

    var behaviors := ForOf(Some(OrEmpty(Prop(attrs, "crowdsourced_ids_results"))));
    if behaviors.Err? {
      return Err(behaviors.message);
    }
    var err := AddCrowdsourced(behaviors.value, fileSystem, registry, network);
    if err.Some? {
      return Err(err.value);
    }
    var act := Crowdsourced(behaviors.value).value;

    var importList := ImportList(attrs);
    if Truthy(importList) {
      var imports := ForOf(importList);
      if imports.Err? {
        return Err(imports.message);
      }
      err := AddImports(imports.value, network);
      if err.Some? {
        return Err(err.value);
      }
      AddAllAppend([], act.network, ImportsActivity(imports.value).value);
      act := act.(network := act.network + ImportsActivity(imports.value).value);
    }
    assert Collected(attrs) == Ok(act);

    report := AppendSections(report, fileSystem, registry, network);
    report := report + SummaryLine(attrs);
    return Ok(report);
  }

  // ---------------------------------------------------------------------
  // What the report says

  /** A report opens with the process line and closes with the detection summary. */
  lemma ReportTextFrame(attributes: Json, act: Activity)
    ensures StartsWith(ReportText(attributes, act), ProcessLead + ProcessName(attributes) + "\n\n")
    ensures |SummaryLine(attributes)| <= |ReportText(attributes, act)|
    ensures ReportText(attributes, act)[|ReportText(attributes, act)| - |SummaryLine(attributes)|..]
      == SummaryLine(attributes)
  {
    var head, tail := ProcessLine(attributes), SummaryLine(attributes);
    var middle := Sections(AddAll([], act.fileSystem), AddAll([], act.registry), AddAll([], act.network));
    AppendParts(head + middle, tail);
    AppendAssociative(head, middle, tail);
    AppendParts(head, middle + tail);
  }

  /** The fixed message is the result exactly when the response carries no attributes. */
  lemma NoAttributesMessage(data: Json)
    ensures ReportOf(data) == Ok(NoAttributesText) <==> !Truthy(Attributes(data))
  {
    if Truthy(Attributes(data)) && Collected(Attributes(data).value).Ok? {
      var attrs, act := Attributes(data).value, Collected(Attributes(data).value).value;
      ReportTextFrame(attrs, act);
      assert ReportText(attrs, act)[0] == 'P';
      assert NoAttributesText[0] != 'P';
    }
  }

  /**
   * Without crowdsourced results and without an import list, all three
   * sections show the placeholder line.
   */
  lemma QuietSampleReport(data: Json)
    requires Truthy(Attributes(data))
    requires Prop(Attributes(data).value, "crowdsourced_ids_results") == None
    requires ImportList(Attributes(data).value) == None
    ensures ReportOf(data) == Ok(ProcessLine(Attributes(data).value)
      + (FileSystemTitle + NoActivity + RegistryTitle + NoActivity + NetworkTitle + NoActivity)
      + SummaryLine(Attributes(data).value))
  {
    var attrs := Attributes(data).value;
    var none := Activity([], [], []);
    assert ForOf(Some(OrEmpty(Prop(attrs, "crowdsourced_ids_results")))) == Ok([]);
    assert Collected(attrs) == Ok(none);
    assert Sections([], [], []) == FileSystemTitle + NoActivity + RegistryTitle + NoActivity + NetworkTitle + NoActivity;
  }

  /**
   * A counter that is missing, null, zero or otherwise falsy prints as 0;
   * a positive count prints as its decimal digits.
   */
  lemma CounterPrinted(attributes: Json, key: string)
    ensures !Truthy(OptMember(Prop(attributes, "last_analysis_stats"), key)) ==> Counter(attributes, key) == "0"
    ensures var v := OptMember(Prop(attributes, "last_analysis_stats"), key);
      v.Some? && v.value.JNum? && v.value.n > 0 ==>
      IsDecimal(Counter(attributes, key)) && DecimalValue(Counter(attributes, key)) == v.value.n
  {
    var v := OptMember(Prop(attributes, "last_analysis_stats"), key);
    if v.Some? && v.value.JNum? && v.value.n > 0 {
      IntToStringValue(v.value.n);
    }
  }

  /**
   * With every counter falsy (in particular without `last_analysis_stats`),
   * the summary prints three zeros.
   */
  lemma MissingStatisticsPrintZero(attributes: Json)
    requires !Truthy(OptMember(Prop(attributes, "last_analysis_stats"), "harmless"))
    requires !Truthy(OptMember(Prop(attributes, "last_analysis_stats"), "malicious"))
    requires !Truthy(OptMember(Prop(attributes, "last_analysis_stats"), "suspicious"))
    ensures SummaryLine(attributes) == SummaryTitle + "- 无害: 0, 恶意: 0, 可疑: 0"
  {
    CounterPrinted(attributes, "harmless");
    CounterPrinted(attributes, "malicious");
    CounterPrinted(attributes, "suspicious");
  }

  lemma {:induction false} CrowdsourcedFailsAt(behaviors: seq<Json>, i: nat)
    requires i < |behaviors| && BehaviorActivity(behaviors[i]).Err?
    ensures Crowdsourced(behaviors).Err?
  {
    var upTo := behaviors[..i + 1];
    assert upTo[..i] == behaviors[..i] && upTo[i] == behaviors[i];
    if Crowdsourced(behaviors[..i]).Err? {
      CrowdsourcedFailsEarly(behaviors, i);
    } else {
      CrowdsourcedFailsEarly(behaviors, i + 1);
    }
  }

  /**
   * The normaliser throws when a crowdsourced entry has no `attributes`
   * object: `behavior.attributes.files_written` reads a property of undefined.
   */
  lemma EntryWithoutAttributesFails(data: Json, behaviors: seq<Json>, i: nat)
    requires Truthy(Attributes(data))
    requires Prop(Attributes(data).value, "crowdsourced_ids_results") == Some(JArr(behaviors))
    requires i < |behaviors| && Nullish(Prop(behaviors[i], "attributes"))
    ensures ReportOf(data).Err?
  {
    assert BehaviorActivity(behaviors[i]).Err?;
    CrowdsourcedFailsAt(behaviors, i);
    assert Collected(Attributes(data).value).Err?;
  }

  /** A line of the network section: a connection, or a networking import of `ws2_32.dll`. */
  ghost predicate IsNetworkLine(line: string)
  {
    StartsWith(line, ConnectionLead) || exists name :: name in NetworkFunctions && line == ImportLine(name)
  }

  ghost predicate NetworkLines(lines: seq<string>)
  {
    forall k :: 0 <= k < |lines| ==> IsNetworkLine(lines[k])
  }

  lemma NetworkLinesAppend(a: seq<string>, b: seq<string>)
    requires NetworkLines(a) && NetworkLines(b)
    ensures NetworkLines(a + b)
  {
    assert forall k :: |a| <= k < |a + b| ==> (a + b)[k] == b[k - |a|];
  }

  lemma {:induction false} ConnectionLinesAreNetworkLines(items: seq<Json>)
    requires RenderAll(items, ConnectionLine).Ok?
    ensures NetworkLines(RenderAll(items, ConnectionLine).value)
  {
    var lines := RenderAll(items, ConnectionLine).value;
    forall k | 0 <= k < |lines|
      ensures IsNetworkLine(lines[k])
    {
      var rest := ConnectionDetails(items[k]);
      assert lines[k] == ConnectionLead + rest;
      assert (ConnectionLead + rest)[..|ConnectionLead|] == ConnectionLead;
    }
  }

  lemma {:induction false} BehaviorNetworkLines(behavior: Json)
    requires BehaviorActivity(behavior).Ok?
    ensures NetworkLines(BehaviorActivity(behavior).value.network)
  {
    var a := Member(Some(behavior), "attributes").value;
    var items := Listed(a, "network_communications").value;
    assert BehaviorActivity(behavior).value.network == RenderAll(items, ConnectionLine).value;
    ConnectionLinesAreNetworkLines(items);
  }

  lemma {:induction false} CrowdsourcedNetworkLines(behaviors: seq<Json>)
    requires Crowdsourced(behaviors).Ok?
    ensures NetworkLines(Crowdsourced(behaviors).value.network)
  {
    if behaviors != [] {
      var init, last := behaviors[..|behaviors| - 1], behaviors[|behaviors| - 1];
      var acc, b := Crowdsourced(init).value, BehaviorActivity(last).value;
      assert Crowdsourced(behaviors) == Ok(Merge(acc, b));
      CrowdsourcedNetworkLines(init);
      BehaviorNetworkLines(last);
      NetworkLinesAppend(acc.network, b.network);
    }
  }

  lemma {:induction false} ImportedLinesAreNetworkLines(funcs: seq<Json>)
    ensures NetworkLines(ImportedNetworkLines(funcs))
  {
    if funcs != [] {
      var init, last := funcs[..|funcs| - 1], funcs[|funcs| - 1];
      ImportedLinesAreNetworkLines(init);
      if IsNetworkFunction(last) {
        assert IsNetworkLine(ImportLine(last.s));
        NetworkLinesAppend(ImportedNetworkLines(init), [ImportLine(last.s)]);
      } else {
        assert ImportedNetworkLines(funcs) == ImportedNetworkLines(init) + [];
        assert ImportedNetworkLines(init) + [] == ImportedNetworkLines(init);
      }
    }
  }

  /** Every networking function a `ws2_32.dll` import lists gets its line. */
  lemma {:induction false} ImportedFunctionListed(funcs: seq<Json>, k: nat)
    requires k < |funcs| && IsNetworkFunction(funcs[k])
    ensures ImportLine(funcs[k].s) in ImportedNetworkLines(funcs)
  {
    var init := funcs[..|funcs| - 1];
    if k < |init| {
      assert init[k] == funcs[k];
      ImportedFunctionListed(init, k);
    }
  }

  lemma {:induction false} ImportsNetworkLines(imports: seq<Json>)
    requires ImportsActivity(imports).Ok?
    ensures NetworkLines(ImportsActivity(imports).value)
  {
    if imports != [] {
      var init, imp := imports[..|imports| - 1], imports[|imports| - 1];
      ImportsNetworkLines(init);
      var acc, lines := ImportsActivity(init).value, ImportActivity(imp).value;
      if lines != [] {
        ImportedLinesAreNetworkLines(ForEach(Prop(imp, "imported_functions")).value);
      }
      NetworkLinesAppend(acc, lines);
    }
  }

  /** An import entry for any library other than `ws2_32.dll` adds no line. */
  lemma OtherLibraryIgnored(imp: Json)
    requires imp != JNull && Prop(imp, "library_name") != Some(JStr(NetworkLibrary))
    ensures ImportActivity(imp) == Ok([])
  {
  }

  /**
   * The network section lists only connections and the four networking
   * functions imported from `ws2_32.dll` (see `OtherLibraryIgnored` for the
   * other libraries).
   */
  lemma NetworkSectionOrigin(attributes: Json)
    requires Collected(attributes).Ok?
    ensures forall line :: line in AddAll([], Collected(attributes).value.network) ==> IsNetworkLine(line)
  {
    var behaviors := ForOf(Some(OrEmpty(Prop(attributes, "crowdsourced_ids_results")))).value;
    var act := Crowdsourced(behaviors).value;
    CrowdsourcedNetworkLines(behaviors);
    var network := Collected(attributes).value.network;
    if Truthy(ImportList(attributes)) {
      var imports := ForOf(ImportList(attributes)).value;
      ImportsNetworkLines(imports);
      assert network == act.network + ImportsActivity(imports).value;
      NetworkLinesAppend(act.network, ImportsActivity(imports).value);
    }
    AddAllMembers([], network);
  }

  // ---------------------------------------------------------------------
  // The lookup

  const FilesEndpoint: string := "https://www.virustotal.com/api/v3/files/"
  const ApiErrorLead: string := "VirusTotal API 错误: "
  const LookupFailed: string := "无法从 VirusTotal 获取报告。"

  function NotFoundText(hash: string): (r: string)
    ensures IsInfix(hash, r)
  {
    InfixOfConcat("文件哈希 ", hash, " 在 VirusTotal 上未找到。您可能需要先在那里上传它。");
    "文件哈希 " + hash + " 在 VirusTotal 上未找到。您可能需要先在那里上传它。"
  }

  /** The files endpoint for one digest: the hash is the last path segment. */
  function LookupUrl(hash: string): (url: string)
    ensures StartsWith(url, FilesEndpoint) && url[|FilesEndpoint|..] == hash
  {
    FilesEndpoint + hash
  }

  /** The `try` block once the request is answered: 404 is an answer, other failures throw. */
  function Answered(hash: string, reply: Transport): Result<string>
  {
    match reply
    case Unreachable(message) => Err(message)
    case Received(response) =>
      if !IsOk(response.status) then
        if response.status == 404 then Ok(NotFoundText(hash))
        else Err(ApiErrorLead + IntToString(response.status) + " " + response.statusText)
      else
        match response.body
        case Unparsable(message) => Err(message)
        case Parsed(json) => ReportOf(json)
  }

  /**
   * `getVirusTotalReport`: looks the content's digest up and normalises
   * the answer; every failure is replaced by one generic error.
   */
  function GetVirusTotalReport(content: seq<byte>, sha256: seq<byte> -> Digest, reply: Transport)
    : (r: Exchange<string, string>)
    ensures r.sent.Some? && StartsWith(r.sent.value, FilesEndpoint)
    ensures DecodeHex(r.sent.value[|FilesEndpoint|..]) == Some(sha256(content))
    ensures r.result.Err? ==> r.result == Err(LookupFailed)
    ensures r.result.Ok? <==>
      (reply.Received? && reply.response.status == 404) ||
      (reply.Received? && IsOk(reply.response.status) && reply.response.body.Parsed?
        && ReportOf(reply.response.body.json).Ok?)
    ensures reply.Received? && reply.response.status == 404 ==>
      r.result == Ok(NotFoundText(CalculateFileHash(content, sha256)))
    ensures (reply.Received? && IsOk(reply.response.status) && reply.response.body.Parsed?
             && ReportOf(reply.response.body.json).Ok?) ==> r.result == ReportOf(reply.response.body.json)
  {
    var hash := CalculateFileHash(content, sha256);
    var answer := Answered(hash, reply);
    Exchange(Some(LookupUrl(hash)), if answer.Ok? then answer else Err(LookupFailed))
  }

  /** A digest VirusTotal does not know is reported, with the digest, rather than thrown. */
  lemma NotFoundNamesTheDigest(content: seq<byte>, sha256: seq<byte> -> Digest, response: Response)
    requires response.status == 404
    ensures GetVirusTotalReport(content, sha256, Received(response)).result.Ok?
    ensures IsInfix(CalculateFileHash(content, sha256), GetVirusTotalReport(content, sha256, Received(response)).result.value)
  {
  }

  /** Any other failed status throws an error naming the status. */
  lemma FailedStatusReported(hash: string, response: Response)
    requires !IsOk(response.status) && response.status != 404
    ensures Answered(hash, Received(response)).Err?
    ensures StartsWith(Answered(hash, Received(response)).message, ApiErrorLead)
    ensures IsInfix(IntToString(response.status), Answered(hash, Received(response)).message)
  {
    var status := IntToString(response.status);
    var rest := status + " " + response.statusText;
    assert Answered(hash, Received(response)).message == ApiErrorLead + rest;
    assert (ApiErrorLead + rest)[..|ApiErrorLead|] == ApiErrorLead;
    InfixOfConcat(ApiErrorLead, status, " " + response.statusText);
    assert ApiErrorLead + status + (" " + response.statusText) == ApiErrorLead + rest;
  }

  /**
   * The status and status text of any other failed reply are in the
   * intermediate error but not in what the caller receives.
   */
  lemma FailureStatusIsLost(content: seq<byte>, sha256: seq<byte> -> Digest, a: Response, b: Response)
    requires !IsOk(a.status) && a.status != 404 && !IsOk(b.status) && b.status != 404
    ensures StartsWith(Answered(CalculateFileHash(content, sha256), Received(a)).message, ApiErrorLead)
    ensures IsInfix(IntToString(a.status), Answered(CalculateFileHash(content, sha256), Received(a)).message)
    ensures GetVirusTotalReport(content, sha256, Received(a)).result
      == GetVirusTotalReport(content, sha256, Received(b)).result
  {
    FailedStatusReported(CalculateFileHash(content, sha256), a);
  }
}
