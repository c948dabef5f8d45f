/** lib/sqs-helper/helper/generate-names.js: the names derived from an
    entity name by case conversion and suffixing. */
module GenerateNames {
  import opened StringCase

  /** The record the exported function returns: exactly these five fields. */
  datatype EntityNames = EntityNames(
    titleName: string,
    filename: string,
    envVarName: string,
    sqsName: string,
    dlqName: string)

  /** `suffix` follows `prefix` and nothing else is there. */
  predicate Suffixed(s: string, prefix: string, suffix: string)
  {
    |s| == |prefix| + |suffix| && s[..|prefix|] == prefix && s[|prefix|..] == suffix
  }

  function GenerateNames(cases: CaseConversions, name: string): (r: EntityNames)
    ensures r.titleName == cases.upperCamelCase(name)
    ensures r.filename == cases.kebabCase(name)
    ensures r.envVarName == cases.upperSnakeCase(name)
    ensures Suffixed(r.sqsName, r.titleName, "Queue")
    ensures Suffixed(r.dlqName, r.titleName, "DLQ")
    ensures r.sqsName != r.dlqName
  {
    var titleName := cases.upperCamelCase(name);
    EntityNames(
      titleName,
      cases.kebabCase(name),
      cases.upperSnakeCase(name),
      titleName + "Queue",
      titleName + "DLQ")
  }
}
