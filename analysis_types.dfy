/**
 * The unified analysis record every provider adapter produces: a guessed
 * malware family, a summary, three lists of key behaviours, MITRE ATT&CK
 * techniques and four lists of indicators of compromise.
 */
module AnalysisTypes {

  datatype KeyBehaviors = KeyBehaviors(
    fileSystem: seq<string>,
    registry: seq<string>,
    network: seq<string>)

  /** The identifier is expected to look like "T1059.001" but is not checked. */
  datatype Technique = Technique(
    techniqueId: string,
    techniqueName: string,
    description: string)

  datatype Indicators = Indicators(
    files: seq<string>,
    domains: seq<string>,
    ips: seq<string>,
    registryKeys: seq<string>)

  datatype AnalysisResult = AnalysisResult(
    malwareFamilyGuess: string,
    summary: string,
    keyBehaviors: KeyBehaviors,
    mitreAttackTechniques: seq<Technique>,
    indicatorsOfCompromise: Indicators)
}
