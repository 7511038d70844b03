/**
 * The structured-output contract the scorer is held to: `json_schema` in schema.py.
 *
 * The schema is kept as data (a `Schema` value built from the same nested keywords),
 * together with the JSON Schema validation rule for the keywords it uses, and is
 * related to a direct, hand-written description of a valid scorer response.
 */
module Schema {
  import opened Json

  /**
   * A JSON Schema node restricted to the keywords schema.py uses: "type" ("number",
   * "string" or "object"), "properties", "required" and "additionalProperties".
   * The "description" keywords are annotations and do not take part in validation.
   */
  datatype Schema =
    | NumberType
    | StringType
    | ObjectType(properties: seq<(string, Schema)>, required: seq<string>, additionalProperties: bool)

  /** The keys named under "properties". */
  function PropertyNames(props: seq<(string, Schema)>): (names: set<string>)
    ensures forall i :: 0 <= i < |props| ==> props[i].0 in names
    ensures forall k :: k in names ==> exists i :: 0 <= i < |props| && props[i].0 == k
  {
    if props == [] then {} else {props[0].0} + PropertyNames(props[1..])
  }

  /**
   * JSON Schema validation of `v` against `s`: a "number" is any JSON number, a "string"
   * any JSON string; an "object" must hold every "required" key, hold no key outside
   * "properties" when "additionalProperties" is false, and every property it holds must
   * conform to that property's schema.
   */
  predicate Conforms(s: Schema, v: Value)
    ensures Conforms(s, v) ==> (s.NumberType? <==> v.JNumber?) && (s.StringType? <==> v.JString?) && (s.ObjectType? <==> v.JObject?)
    ensures Conforms(s, v) && s.ObjectType? ==> forall k :: k in s.required ==> k in v.fields
    decreases s
  {
    match s
    case NumberType => v.JNumber?
    case StringType => v.JString?
    case ObjectType(props, required, additional) =>
      && v.JObject?
      && (forall k :: k in required ==> k in v.fields)
      && (additional || forall k :: k in v.fields ==> k in PropertyNames(props))
      && (forall i :: 0 <= i < |props| && props[i].0 in v.fields ==>
            Conforms(props[i].1, v.fields[props[i].0]))
  }

  const Opportunity := "opportunity"
  const MissionAlignment := "mission_and_strategic_alignment"
  const TechnicalFeasibility := "technical_feasibility"
  const CompetitiveAdvantage := "competitive_advantage"
  const FinancialViability := "financial_contractual_viability"
  const RiskCompliance := "risk_and_compliance"
  const Score := "score"
  const Explanation := "explanation"

  /** The five dimensions, in the order schema.py lists them. */
  const DimensionKeys: seq<string> :=
    [MissionAlignment, TechnicalFeasibility, CompetitiveAdvantage, FinancialViability, RiskCompliance]

  /** The schema every one of the five dimensions has: a numeric score and a string explanation. */
  const DimensionSchema: Schema :=
    ObjectType([(Score, NumberType), (Explanation, StringType)], [Score, Explanation], false)

  const OpportunitySchema: Schema :=
    ObjectType(
      [ (MissionAlignment, DimensionSchema), (TechnicalFeasibility, DimensionSchema),
        (CompetitiveAdvantage, DimensionSchema), (FinancialViability, DimensionSchema),
        (RiskCompliance, DimensionSchema) ],
      DimensionKeys, false)

  /** `json_schema`: an object with the single required key "opportunity". */
  const ResponseSchema: Schema :=
    ObjectType([(Opportunity, OpportunitySchema)], [Opportunity], false)

  // A direct description of the responses the schema admits.

  predicate ValidDimension(v: Value) {
    && v.JObject?
    && v.fields.Keys == {Score, Explanation}
    && v.fields[Score].JNumber?
    && v.fields[Explanation].JString?
  }

  predicate ValidOpportunity(v: Value) {
    && v.JObject?
    && (forall k :: k in v.fields ==> k in DimensionKeys)
    && (forall k :: k in DimensionKeys ==> k in v.fields)
    && forall k :: k in v.fields ==> ValidDimension(v.fields[k])
  }

  predicate ValidResponse(v: Value) {
    && v.JObject?
    && v.fields.Keys == {Opportunity}
    && ValidOpportunity(v.fields[Opportunity])
  }

  lemma DimensionConforms(v: Value)
    ensures Conforms(DimensionSchema, v) <==> ValidDimension(v)
  {
    var props := DimensionSchema.properties;
    assert PropertyNames(props) == {Score, Explanation};
    if Conforms(DimensionSchema, v) {
      assert props[0].0 in v.fields && props[1].0 in v.fields;
      assert Conforms(props[0].1, v.fields[Score]);
      assert Conforms(props[1].1, v.fields[Explanation]);
    }
    if ValidDimension(v) {
      forall i | 0 <= i < |props| && props[i].0 in v.fields
        ensures Conforms(props[i].1, v.fields[props[i].0])
      {
        assert i == 0 || i == 1;
      }
    }
  }

  /**
   * An object schema without additional properties whose properties all share one schema
   * admits an object exactly when it has every required key, only property keys, and
   * every value conforms to the shared schema.
   */
  lemma UniformObjectConforms(props: seq<(string, Schema)>, required: seq<string>, element: Schema, v: Value)
    requires forall i :: 0 <= i < |props| ==> props[i].1 == element
    ensures Conforms(ObjectType(props, required, false), v) <==>
      && v.JObject?
      && (forall k :: k in required ==> k in v.fields)
      && (forall k :: k in v.fields ==> k in PropertyNames(props))
      && (forall k :: k in v.fields ==> Conforms(element, v.fields[k]))
  {
    if v.JObject? && forall k :: k in v.fields ==> k in PropertyNames(props) {
      forall k | k in v.fields
        ensures Conforms(element, v.fields[k]) <==>
          forall i :: 0 <= i < |props| && props[i].0 == k ==> Conforms(props[i].1, v.fields[props[i].0])
      {
        var i :| 0 <= i < |props| && props[i].0 == k;
      }
    }
  }

  lemma OpportunityConforms(v: Value)
    ensures Conforms(OpportunitySchema, v) <==> ValidOpportunity(v)
  {
    var props := OpportunitySchema.properties;
    assert forall i :: 0 <= i < |props| ==> props[i].1 == DimensionSchema && props[i].0 == DimensionKeys[i];
    UniformObjectConforms(props, DimensionKeys, DimensionSchema, v);
    assert forall k :: k in PropertyNames(props) <==> k in DimensionKeys;
    forall k | v.JObject? && k in v.fields ensures Conforms(DimensionSchema, v.fields[k]) <==> ValidDimension(v.fields[k]) {
      DimensionConforms(v.fields[k]);
    }
  }

  /** The schema admits exactly the responses described above. */
  lemma ResponseConforms(v: Value)
    ensures Conforms(ResponseSchema, v) <==> ValidResponse(v)
  {
    var props := ResponseSchema.properties;
    assert PropertyNames(props) == {Opportunity};
    if v.JObject? && Opportunity in v.fields {
      OpportunityConforms(v.fields[Opportunity]);
      assert Conforms(ResponseSchema, v) ==> Conforms(props[0].1, v.fields[props[0].0]);
    }
  }
}
