/**
 * The scorecard record of analysis_results.py (`AnalysisResult`), built from a scorer
 * response by `from_analysis`, with its derived `average_score` and the document
 * `to_dict` writes out; plus the step of src/analysis/analysis.py that turns a
 * completion into such a record.
 */
module AnalysisResults {
  import opened Wrappers
  import opened Json
  import opened Schema

  /** Token counts reported by the completion endpoint. */
  datatype Usage = Usage(promptTokens: int, completionTokens: int, totalTokens: int)

  /**
   * What the analysis reads from a completion: the message content after `json.loads`
   * (None when it is not valid JSON), the usage counters and the model name.
   */
  datatype Completion = Completion(content: Option<Value>, usage: Usage, model: string)

  /** Why turning a description into a scorecard raised. */
  datatype AnalysisError =
    | CallFailed               // the completion request raised; the handler's log line then
                               // reads the unassigned `completion`, so UnboundLocalError is what escapes
    | UnparsableContent        // json.loads rejected the message content
    | MissingKey(key: string)  // a subscript in from_analysis raised KeyError/TypeError

  /**
   * One scorecard. As in the source, each dimension field holds the dimension object of
   * the response as it came ({"score": ..., "explanation": ...} for a valid response);
   * `timestamp` is the ISO-8601 text of the creation time.
   */
  datatype AnalysisResult = AnalysisResult(
    description: string,
    missionAlignment: Value,
    technicalFeasibility: Value,
    competitiveAdvantage: Value,
    financialViability: Value,
    riskCompliance: Value,
    promptTokens: int,
    completionTokens: int,
    totalTokens: int,
    timestamp: string,
    modelUsed: string)

  /** `Get` with the error `from_analysis` raises attached: `MissingKey(key)` when `v[key]` fails. */
  function Field(v: Value, key: string): (r: Result<Value, AnalysisError>)
    ensures r.Success? <==> v.JObject? && key in v.fields
    ensures r.Success? ==> r.value == v.fields[key]
    ensures r.Failure? ==> r.error == MissingKey(key)
  {
    match Get(v, key)
    case Some(field) => Success(field)
    case None => Failure(MissingKey(key))
  }

  /** Everything `from_analysis` subscripts is present. */
  predicate HasAnalysisKeys(analysis: Value) {
    && analysis.JObject?
    && Opportunity in analysis.fields
    && var opportunity := analysis.fields[Opportunity];
    && opportunity.JObject?
    && forall k :: k in DimensionKeys ==> k in opportunity.fields
  }

  /** `AnalysisResult.from_analysis`; the clock reading is passed in as `timestamp`. */
  function FromAnalysis(description: string, analysis: Value, completion: Completion, timestamp: string)
    : (r: Result<AnalysisResult, AnalysisError>)
    ensures r.Success? <==> HasAnalysisKeys(analysis)
    ensures r.Success? ==>
      var opportunity := analysis.fields[Opportunity];
      && r.value.description == description
      && r.value.missionAlignment == opportunity.fields[MissionAlignment]
      && r.value.technicalFeasibility == opportunity.fields[TechnicalFeasibility]
      && r.value.competitiveAdvantage == opportunity.fields[CompetitiveAdvantage]
      && r.value.financialViability == opportunity.fields[FinancialViability]
      && r.value.riskCompliance == opportunity.fields[RiskCompliance]
      && r.value.promptTokens == completion.usage.promptTokens
      && r.value.completionTokens == completion.usage.completionTokens
      && r.value.totalTokens == completion.usage.totalTokens
      && r.value.timestamp == timestamp
      && r.value.modelUsed == completion.model
  {
    var opportunity :- Field(analysis, Opportunity);
    var mission :- Field(opportunity, MissionAlignment);
    var technical :- Field(opportunity, TechnicalFeasibility);
    var competitive :- Field(opportunity, CompetitiveAdvantage);
    var financial :- Field(opportunity, FinancialViability);
    var risk :- Field(opportunity, RiskCompliance);
    Success(AnalysisResult(
      description, mission, technical, competitive, financial, risk,
      completion.usage.promptTokens, completion.usage.completionTokens, completion.usage.totalTokens,
      timestamp, completion.model))
  }

  /** Every response the schema admits has all the keys `from_analysis` reads. */
  lemma ValidResponseHasAnalysisKeys(analysis: Value)
    requires Conforms(ResponseSchema, analysis)
    ensures HasAnalysisKeys(analysis)
  {
    ResponseConforms(analysis);
    var opportunity := analysis.fields[Opportunity];
    assert forall k :: k in DimensionKeys ==> k in opportunity.fields.Keys;
  }

  /** `dimension["score"]` used as a number: defined when the dimension is an object whose "score" is a number. */
  function ScoreOf(dimension: Value): (r: Option<real>)
    ensures r.Some? <==> dimension.JObject? && Score in dimension.fields && dimension.fields[Score].JNumber?
    ensures r.Some? ==> r.value == dimension.fields[Score].n
  {
    match Get(dimension, Score)
    case Some(JNumber(x)) => Some(x)
    case _ => None
  }

  /** The five dimension objects, in the order `average_score` lists them. */
  function Dimensions(r: AnalysisResult): (ds: seq<Value>)
    ensures |ds| == 5
  {
    [r.missionAlignment, r.technicalFeasibility, r.competitiveAdvantage, r.financialViability, r.riskCompliance]
  }

  /** The list `[d["score"] for d in ds]`, or None when one of the subscripts would raise. */
  function AllScores(ds: seq<Value>): (r: Option<seq<real>>)
    ensures r.Some? <==> forall i :: 0 <= i < |ds| ==> ScoreOf(ds[i]).Some?
    ensures r.Some? ==> |r.value| == |ds| && forall i :: 0 <= i < |ds| ==> r.value[i] == ScoreOf(ds[i]).value
  {
    if ds == [] then Some([])
    else
      var s :- ScoreOf(ds[0]);
      var rest :- AllScores(ds[1..]);
      Some([s] + rest)
  }

  /** Python's `sum`: a left-to-right total starting from zero. */
  function Sum(xs: seq<real>): real {
    if xs == [] then 0.0 else Sum(xs[..|xs| - 1]) + xs[|xs| - 1]
  }

  /** The `average_score` property: `sum(scores) / len(scores)` over the five dimension scores. */
  function AverageScore(r: AnalysisResult): (average: Option<real>)
    ensures average.Some? <==> forall i :: 0 <= i < 5 ==> ScoreOf(Dimensions(r)[i]).Some?
  {
    var scores :- AllScores(Dimensions(r));
    Some(Sum(scores) / |scores| as real)
  }

  /** The average is defined exactly when all five scores are numbers, and is then their mean. */
  lemma {:induction false} AverageScoreLaw(r: AnalysisResult)
    ensures AverageScore(r).Some? <==>
      && ScoreOf(r.missionAlignment).Some? && ScoreOf(r.technicalFeasibility).Some?
      && ScoreOf(r.competitiveAdvantage).Some? && ScoreOf(r.financialViability).Some?
      && ScoreOf(r.riskCompliance).Some?
    ensures AverageScore(r).Some? ==>
      AverageScore(r).value ==
        (ScoreOf(r.missionAlignment).value + ScoreOf(r.technicalFeasibility).value
         + ScoreOf(r.competitiveAdvantage).value + ScoreOf(r.financialViability).value
         + ScoreOf(r.riskCompliance).value) / 5.0
  {
    var ds := Dimensions(r);
    assert ds[0] == r.missionAlignment && ds[1] == r.technicalFeasibility && ds[2] == r.competitiveAdvantage
      && ds[3] == r.financialViability && ds[4] == r.riskCompliance;
    var all := AllScores(ds);
    if all.Some? {
      var s := all.value;
      assert Sum(s[..1]) == s[0] by { assert s[..1][..0] == []; }
      assert Sum(s[..2]) == s[0] + s[1] by { assert s[..2][..1] == s[..1]; }
      assert Sum(s[..3]) == s[0] + s[1] + s[2] by { assert s[..3][..2] == s[..2]; }
      assert Sum(s[..4]) == s[0] + s[1] + s[2] + s[3] by { assert s[..4][..3] == s[..3]; }
      assert s[..5] == s;
    } else {
      var i :| 0 <= i < 5 && ScoreOf(ds[i]).None?;
    }
  }

  /** The average lies between the lowest and the highest score. */
  lemma AverageScoreBounds(r: AnalysisResult, low: real, high: real)
    requires forall i :: 0 <= i < 5 ==> ScoreOf(Dimensions(r)[i]).Some?
    requires forall i :: 0 <= i < 5 ==> low <= ScoreOf(Dimensions(r)[i]).value <= high
    ensures AverageScore(r).Some?
    ensures low <= AverageScore(r).value <= high
  {
    AverageScoreLaw(r);
    var ds := Dimensions(r);
    assert low <= ScoreOf(ds[0]).value <= high && low <= ScoreOf(ds[1]).value <= high
      && low <= ScoreOf(ds[2]).value <= high && low <= ScoreOf(ds[3]).value <= high
      && low <= ScoreOf(ds[4]).value <= high;
  }

  // Keys of the document `to_dict` builds.
  const DescriptionKey := "description"
  const ScoresKey := "scores"
  const UsageKey := "usage"
  const MetadataKey := "metadata"
  const MissionAlignmentKey := "mission_alignment"
  const TechnicalFeasibilityKey := "technical_feasibility"
  const CompetitiveAdvantageKey := "competitive_advantage"
  const FinancialViabilityKey := "financial_viability"
  const RiskComplianceKey := "risk_compliance"
  const AverageScoreKey := "average_score"
  const PromptTokensKey := "prompt_tokens"
  const CompletionTokensKey := "completion_tokens"
  const TotalTokensKey := "total_tokens"
  const TimestampKey := "timestamp"
  const ModelKey := "model"

  /** An object whose keys are exactly `keys`. */
  predicate ObjectWithKeys(v: Value, keys: set<string>) {
    v.JObject? && v.fields.Keys == keys
  }

  /**
   * The fixed layout of a result document: four sections with fixed keys; the
   * description, timestamp and model are strings, the average and the token counts numbers.
   */
  predicate ResultDocumentShape(doc: Value) {
    && ObjectWithKeys(doc, {DescriptionKey, ScoresKey, UsageKey, MetadataKey})
    && doc.fields[DescriptionKey].JString?
    && ObjectWithKeys(doc.fields[ScoresKey],
         {MissionAlignmentKey, TechnicalFeasibilityKey, CompetitiveAdvantageKey, FinancialViabilityKey,
          RiskComplianceKey, AverageScoreKey})
    && doc.fields[ScoresKey].fields[AverageScoreKey].JNumber?
    && ObjectWithKeys(doc.fields[UsageKey], {PromptTokensKey, CompletionTokensKey, TotalTokensKey})
    && doc.fields[UsageKey].fields[PromptTokensKey].JNumber?
    && doc.fields[UsageKey].fields[CompletionTokensKey].JNumber?
    && doc.fields[UsageKey].fields[TotalTokensKey].JNumber?
    && ObjectWithKeys(doc.fields[MetadataKey], {TimestampKey, ModelKey})
    && doc.fields[MetadataKey].fields[TimestampKey].JString?
    && doc.fields[MetadataKey].fields[ModelKey].JString?
  }

  /**
   * `to_dict`: the four-section document written for one record. It is None exactly
   * when evaluating `average_score` raises; otherwise it always has the same layout.
   */
  function ToDict(r: AnalysisResult): (doc: Option<Value>)
    ensures doc.Some? <==> AverageScore(r).Some?
    ensures doc.Some? ==> ResultDocumentShape(doc.value)
  {
    var average :- AverageScore(r);
    Some(JObject(map[
      DescriptionKey := JString(r.description),
      ScoresKey := JObject(map[
        MissionAlignmentKey := r.missionAlignment,
        TechnicalFeasibilityKey := r.technicalFeasibility,
        CompetitiveAdvantageKey := r.competitiveAdvantage,
        FinancialViabilityKey := r.financialViability,
        RiskComplianceKey := r.riskCompliance,
        AverageScoreKey := JNumber(average)]),
      UsageKey := JObject(map[
        PromptTokensKey := JNumber(r.promptTokens as real),
        CompletionTokensKey := JNumber(r.completionTokens as real),
        TotalTokensKey := JNumber(r.totalTokens as real)]),
      MetadataKey := JObject(map[
        TimestampKey := JString(r.timestamp),
        ModelKey := JString(r.modelUsed)])]))
  }

  /** What each entry of the written document holds. */
  lemma ToDictContents(r: AnalysisResult)
    requires ToDict(r).Some?
    ensures var doc := ToDict(r).value;
      var scores := doc.fields[ScoresKey].fields;
      var usage := doc.fields[UsageKey].fields;
      var metadata := doc.fields[MetadataKey].fields;
      && doc.fields[DescriptionKey] == JString(r.description)
      && scores[MissionAlignmentKey] == r.missionAlignment
      && scores[TechnicalFeasibilityKey] == r.technicalFeasibility
      && scores[CompetitiveAdvantageKey] == r.competitiveAdvantage
      && scores[FinancialViabilityKey] == r.financialViability
      && scores[RiskComplianceKey] == r.riskCompliance
      && scores[AverageScoreKey] == JNumber(AverageScore(r).value)
      && usage[PromptTokensKey] == JNumber(r.promptTokens as real)
      && usage[CompletionTokensKey] == JNumber(r.completionTokens as real)
      && usage[TotalTokensKey] == JNumber(r.totalTokens as real)
      && metadata[TimestampKey] == JString(r.timestamp)
      && metadata[ModelKey] == JString(r.modelUsed)
  {
  }

  /** Reads the five dimension scores back out of a written document's "scores" section. */
  function ReadScores(doc: Value): Option<seq<real>> {
    var scores :- Get(doc, ScoresKey);
    var mission :- Get(scores, MissionAlignmentKey);
    var technical :- Get(scores, TechnicalFeasibilityKey);
    var competitive :- Get(scores, CompetitiveAdvantageKey);
    var financial :- Get(scores, FinancialViabilityKey);
    var risk :- Get(scores, RiskComplianceKey);
    AllScores([mission, technical, competitive, financial, risk])
  }

  /** Reads the stored average back out of a written document. */
  function ReadAverage(doc: Value): Option<real> {
    var scores :- Get(doc, ScoresKey);
    var average :- Get(scores, AverageScoreKey);
    if average.JNumber? then Some(average.n) else None
  }

  /**
   * A written document is self-consistent: its five dimension scores read back, and its
   * "average_score" is their mean.
   */
  lemma WrittenAverageIsConsistent(r: AnalysisResult)
    requires ToDict(r).Some?
    ensures ReadScores(ToDict(r).value).Some?
    ensures ReadAverage(ToDict(r).value) == Some(Sum(ReadScores(ToDict(r).value).value) / 5.0)
  {
    var doc := ToDict(r).value;
    var scores := doc.fields[ScoresKey];
    ToDictContents(r);
    assert [scores.fields[MissionAlignmentKey], scores.fields[TechnicalFeasibilityKey],
            scores.fields[CompetitiveAdvantageKey], scores.fields[FinancialViabilityKey],
            scores.fields[RiskComplianceKey]] == Dimensions(r);
    assert ReadScores(doc) == AllScores(Dimensions(r));
    var all := AllScores(Dimensions(r)).value;
    assert AverageScore(r) == Some(Sum(all) / 5.0) by { assert |all| as real == 5.0; }
  }

  /**
   * A response the schema admits always yields a scorecard and a written document, and
   * that document carries the response's five dimension objects under their new names.
   */
  lemma ValidResponseIsRecorded(description: string, analysis: Value, completion: Completion, timestamp: string)
    requires ValidResponse(analysis)
    ensures FromAnalysis(description, analysis, completion, timestamp).Success?
    ensures var r := FromAnalysis(description, analysis, completion, timestamp).value;
      var opportunity := analysis.fields[Opportunity];
      && ToDict(r).Some?
      && var scores := ToDict(r).value.fields[ScoresKey].fields;
      && scores[MissionAlignmentKey] == opportunity.fields[MissionAlignment]
      && scores[TechnicalFeasibilityKey] == opportunity.fields[TechnicalFeasibility]
      && scores[CompetitiveAdvantageKey] == opportunity.fields[CompetitiveAdvantage]
      && scores[FinancialViabilityKey] == opportunity.fields[FinancialViability]
      && scores[RiskComplianceKey] == opportunity.fields[RiskCompliance]
  {
    var opportunity := analysis.fields[Opportunity];
    assert HasAnalysisKeys(analysis) by {
      assert forall k :: k in DimensionKeys ==> k in opportunity.fields.Keys;
    }
    var r := FromAnalysis(description, analysis, completion, timestamp).value;
    ValidResponseDimensions(analysis, r);
    ValidDimensionsHaveAverage(r);
    ToDictContents(r);
  }

  lemma ValidResponseDimensions(analysis: Value, r: AnalysisResult)
    requires ValidResponse(analysis) && HasAnalysisKeys(analysis)
    requires var opportunity := analysis.fields[Opportunity];
      && r.missionAlignment == opportunity.fields[MissionAlignment]
      && r.technicalFeasibility == opportunity.fields[TechnicalFeasibility]
      && r.competitiveAdvantage == opportunity.fields[CompetitiveAdvantage]
      && r.financialViability == opportunity.fields[FinancialViability]
      && r.riskCompliance == opportunity.fields[RiskCompliance]
    ensures ValidDimension(r.missionAlignment) && ValidDimension(r.technicalFeasibility)
    ensures ValidDimension(r.competitiveAdvantage) && ValidDimension(r.financialViability)
    ensures ValidDimension(r.riskCompliance)
  {
  }

  lemma ValidDimensionsHaveAverage(r: AnalysisResult)
    requires ValidDimension(r.missionAlignment) && ValidDimension(r.technicalFeasibility)
    requires ValidDimension(r.competitiveAdvantage) && ValidDimension(r.financialViability)
    requires ValidDimension(r.riskCompliance)
    ensures AverageScore(r).Some?
  {
    AverageScoreLaw(r);
  }

  /**
   * The body of `analyze_use_case` after the remote call: `call` is the call's outcome
   * (None when it raised); the content is parsed and handed to `from_analysis`. Every
   * failure propagates to the caller.
   */
  function AnalyzeUseCase(description: string, call: Option<Completion>, timestamp: string)
    : (r: Result<AnalysisResult, AnalysisError>)
    ensures r.Success? <==> call.Some? && call.value.content.Some? && HasAnalysisKeys(call.value.content.value)
    ensures call.None? ==> r == Failure(CallFailed)
    ensures call.Some? && call.value.content.None? ==> r == Failure(UnparsableContent)
    ensures r.Success? ==> r.value.description == description && r.value.modelUsed == call.value.model
  {
    match call
    case None => Failure(CallFailed)
    case Some(completion) =>
      match completion.content
      case None => Failure(UnparsableContent)
      case Some(data) => FromAnalysis(description, data, completion, timestamp)
  }

  /** Under the strict structured-output contract the analysis of a description cannot fail. */
  lemma ConformingCompletionIsAnalyzed(description: string, completion: Completion, timestamp: string)
    requires completion.content.Some? && Conforms(ResponseSchema, completion.content.value)
    ensures AnalyzeUseCase(description, Some(completion), timestamp).Success?
    ensures ToDict(AnalyzeUseCase(description, Some(completion), timestamp).value).Some?
  {
    ResponseConforms(completion.content.value);
    ValidResponseIsRecorded(description, completion.content.value, completion, timestamp);
  }
}
