/**
 * The constraints a problem's markdown front matter declares, and the zod
 * schema that validates them. Every field is optional.
 */
module ProblemSchema {
  import opened Wrappers
  import opened JsonValues

  datatype FrontMatter = FrontMatter(
    timeLimitMs: Option<nat>,
    memoryLimitByte: Option<nat>,
    requiredRegExpsInCode: Option<seq<string>>,
    forbiddenRegExpsInCode: Option<seq<string>>,
    forbiddenTextsInCode: Option<seq<string>>,
    isManualScoringRequired: Option<bool>,
    requiredEnvironmentVariables: Option<seq<string>>,
    requiredOutputFilePaths: Option<seq<string>>,
    requiredSubmissionFilePaths: Option<seq<string>>)

  const EmptyFrontMatter := FrontMatter(None, None, None, None, None, None, None, None, None)

  /** `z.number().int().min(0).optional()`. */
  predicate ValidLimit(f: map<string, Json>, key: string) {
    key in f ==> f[key].JNumber? && IsIntegral(f[key].n) && f[key].n >= 0.0
  }

  /** `z.array(z.string().min(1)).optional()`. */
  predicate ValidNonEmptyStrings(f: map<string, Json>, key: string) {
    key in f ==>
      && f[key].JArray?
      && forall i :: 0 <= i < |f[key].items| ==> f[key].items[i].JString? && f[key].items[i].s != []
  }

  /** `problemMarkdownFrontMatterSchema`; keys it does not name are ignored. */
  predicate ValidFrontMatterJson(j: Json) {
    && j.JObject?
    && ValidLimit(j.fields, "timeLimitMs")
    && ValidLimit(j.fields, "memoryLimitByte")
    && ValidNonEmptyStrings(j.fields, "requiredRegExpsInCode")
    && ValidNonEmptyStrings(j.fields, "forbiddenRegExpsInCode")
    && ValidNonEmptyStrings(j.fields, "forbiddenTextsInCode")
    && ("isManualScoringRequired" in j.fields ==> j.fields["isManualScoringRequired"].JBool?)
    && ValidNonEmptyStrings(j.fields, "requiredEnvironmentVariables")
    && ValidNonEmptyStrings(j.fields, "requiredOutputFilePaths")
    && ValidNonEmptyStrings(j.fields, "requiredSubmissionFilePaths")
  }

  function Limit(f: map<string, Json>, key: string): (r: Option<nat>)
    requires ValidLimit(f, key)
    ensures r.Some? <==> key in f
    ensures r.Some? ==> r.value as real == f[key].n
  {
    if key in f then Some(f[key].n.Floor) else None
  }

  function Strings(items: seq<Json>): (r: seq<string>)
    requires forall i :: 0 <= i < |items| ==> items[i].JString?
    ensures |r| == |items|
    ensures forall i :: 0 <= i < |items| ==> r[i] == items[i].s
  {
    if items == [] then [] else [items[0].s] + Strings(items[1..])
  }

  function StringList(f: map<string, Json>, key: string): (r: Option<seq<string>>)
    requires ValidNonEmptyStrings(f, key)
    ensures r.Some? <==> key in f
    ensures r.Some? ==> forall i :: 0 <= i < |r.value| ==> r.value[i] != []
  {
    if key in f then Some(Strings(f[key].items)) else None
  }

  /** Every list element of a front matter is a non-empty string. */
  predicate ListsHoldNonEmptyStrings(fm: FrontMatter) {
    && (fm.requiredRegExpsInCode.Some? ==> forall i :: 0 <= i < |fm.requiredRegExpsInCode.value| ==> fm.requiredRegExpsInCode.value[i] != [])
    && (fm.forbiddenRegExpsInCode.Some? ==> forall i :: 0 <= i < |fm.forbiddenRegExpsInCode.value| ==> fm.forbiddenRegExpsInCode.value[i] != [])
    && (fm.forbiddenTextsInCode.Some? ==> forall i :: 0 <= i < |fm.forbiddenTextsInCode.value| ==> fm.forbiddenTextsInCode.value[i] != [])
    && (fm.requiredEnvironmentVariables.Some? ==> forall i :: 0 <= i < |fm.requiredEnvironmentVariables.value| ==> fm.requiredEnvironmentVariables.value[i] != [])
    && (fm.requiredOutputFilePaths.Some? ==> forall i :: 0 <= i < |fm.requiredOutputFilePaths.value| ==> fm.requiredOutputFilePaths.value[i] != [])
    && (fm.requiredSubmissionFilePaths.Some? ==> forall i :: 0 <= i < |fm.requiredSubmissionFilePaths.value| ==> fm.requiredSubmissionFilePaths.value[i] != [])
  }

  /** `problemMarkdownFrontMatterSchema.parse`: a front matter exactly when the value is valid. */
  function ParseFrontMatter(j: Json): (r: Option<FrontMatter>)
    ensures r.Some? <==> ValidFrontMatterJson(j)
    ensures r.Some? ==> ListsHoldNonEmptyStrings(r.value)
    ensures r.Some? ==> (r.value.timeLimitMs.Some? <==> "timeLimitMs" in j.fields)
    ensures r.Some? ==> (r.value.memoryLimitByte.Some? <==> "memoryLimitByte" in j.fields)
    ensures r.Some? ==> (r.value.isManualScoringRequired.Some? <==> "isManualScoringRequired" in j.fields)
  {
    if !ValidFrontMatterJson(j) then None
    else
      var f := j.fields;
      Some(FrontMatter(
        Limit(f, "timeLimitMs"),
        Limit(f, "memoryLimitByte"),
        StringList(f, "requiredRegExpsInCode"),
        StringList(f, "forbiddenRegExpsInCode"),
        StringList(f, "forbiddenTextsInCode"),
        if "isManualScoringRequired" in f then Some(f["isManualScoringRequired"].b) else None,
        StringList(f, "requiredEnvironmentVariables"),
        StringList(f, "requiredOutputFilePaths"),
        StringList(f, "requiredSubmissionFilePaths")))
  }

  /** A parsed limit is present exactly when its key is, and then equals the JSON number. */
  predicate LimitReadFrom(v: Option<nat>, f: map<string, Json>, key: string) {
    && (v.Some? <==> key in f)
    && (v.Some? ==> key in f && f[key].JNumber? && v.value as real == f[key].n)
  }

  /** A parsed list is present exactly when its key is, and then holds the JSON array's strings in order. */
  predicate ListReadFrom(v: Option<seq<string>>, f: map<string, Json>, key: string) {
    && (v.Some? <==> key in f)
    && (v.Some? ==>
          && key in f && f[key].JArray? && |v.value| == |f[key].items|
          && forall i :: 0 <= i < |v.value| ==> f[key].items[i].JString? && v.value[i] == f[key].items[i].s)
  }

  /** Each field of a parsed front matter is read from its own key, and is absent when the key is. */
  lemma ParsedFieldsFollowKeys(j: Json)
    requires ParseFrontMatter(j).Some?
    ensures var fm := ParseFrontMatter(j).value;
            var f := j.fields;
            && LimitReadFrom(fm.timeLimitMs, f, "timeLimitMs")
            && LimitReadFrom(fm.memoryLimitByte, f, "memoryLimitByte")
            && ListReadFrom(fm.requiredRegExpsInCode, f, "requiredRegExpsInCode")
            && ListReadFrom(fm.forbiddenRegExpsInCode, f, "forbiddenRegExpsInCode")
            && ListReadFrom(fm.forbiddenTextsInCode, f, "forbiddenTextsInCode")
            && (fm.isManualScoringRequired.Some? <==> "isManualScoringRequired" in f)
            && (fm.isManualScoringRequired.Some? ==>
                  f["isManualScoringRequired"] == JBool(fm.isManualScoringRequired.value))
            && ListReadFrom(fm.requiredEnvironmentVariables, f, "requiredEnvironmentVariables")
            && ListReadFrom(fm.requiredOutputFilePaths, f, "requiredOutputFilePaths")
            && ListReadFrom(fm.requiredSubmissionFilePaths, f, "requiredSubmissionFilePaths")
  {
  }

  /** Every field is optional: the empty object is a valid front matter that declares nothing. */
  lemma EmptyObjectIsValid()
    ensures ParseFrontMatter(JObject(map[])) == Some(EmptyFrontMatter)
  {
  }

  /** A negative or fractional time limit is rejected. */
  lemma BadTimeLimitRejected(f: map<string, Json>, n: real)
    requires n < 0.0 || !IsIntegral(n)
    ensures ParseFrontMatter(JObject(f["timeLimitMs" := JNumber(n)])).None?
  {
  }

  /** An empty string anywhere in a list is rejected. */
  lemma EmptyPathRejected(f: map<string, Json>, items: seq<Json>, k: nat)
    requires k < |items| && items[k] == JString("")
    ensures ParseFrontMatter(JObject(f["requiredOutputFilePaths" := JArray(items)])).None?
  {
  }

  /** `isManualScoringRequired`, when present, must be a boolean. */
  lemma NonBooleanManualScoringRejected(f: map<string, Json>, v: Json)
    requires !v.JBool?
    ensures ParseFrontMatter(JObject(f["isManualScoringRequired" := v])).None?
  {
  }
}
