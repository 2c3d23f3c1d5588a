/**
 * The shared record shapes and the request validator `analyzeProjectSchema`.
 * The validator is a zod object schema: every field must be present with the
 * right JSON type, the length constraints are the only checks, and keys that
 * the schema does not name are dropped from the parsed value.
 */
module Schema {
  import opened Js

  /** A request to analyse a project, as the validator hands it to a route. */
  datatype AnalyzeRequest = AnalyzeRequest(
    name: string,
    description: string,
    stage: string,
    fundingStage: string,
    categories: seq<string>)

  /** The five length constraints of the schema; there are no cross-field rules. */
  predicate ValidRequest(r: AnalyzeRequest)
    ensures ValidRequest(r) ==> r.name != [] && r.stage != [] && r.fundingStage != [] && r.categories != []
  {
    && |r.name| >= 1
    && |r.description| >= 50
    && |r.stage| >= 1
    && |r.fundingStage| >= 1
    && |r.categories| >= 1
  }

  /** `z.string()` applied to a property. */
  function AsString(v: Option<Json>): (r: Option<string>)
    ensures r.Some? <==> v.Some? && v.value.JStr?
    ensures r.Some? ==> v.value == JStr(r.value)
  {
    if v.Some? && v.value.JStr? then Some(v.value.s) else None
  }

  /** The strings of a list of JSON values, when every one of them is a string. */
  function Strings(items: seq<Json>): (r: Option<seq<string>>)
    ensures r.Some? <==> forall i :: 0 <= i < |items| ==> items[i].JStr?
    ensures r.Some? ==> |r.value| == |items| && forall i :: 0 <= i < |items| ==> items[i] == JStr(r.value[i])
  {
    if |items| == 0 then Some([])
    else
      var rest := Strings(items[1..]);
      if items[0].JStr? && rest.Some? then Some([items[0].s] + rest.value) else None
  }

  /** `z.array(z.string())` applied to a property. */
  function AsStringArray(v: Option<Json>): (r: Option<seq<string>>)
    ensures r.Some? <==> v.Some? && v.value.JArr? && forall i :: 0 <= i < |v.value.items| ==> v.value.items[i].JStr?
    ensures r.Some? ==> v.value == StringArray(r.value)
  {
    if v.Some? && v.value.JArr? then Strings(v.value.items) else None
  }

  /** `analyzeProjectSchema.safeParse(body)`: the request when the body passes, `None` when it fails. */
  function SafeParse(body: Json): (r: Option<AnalyzeRequest>)
    ensures r.Some? ==> ValidRequest(r.value)
    ensures r.Some? ==>
      && Prop(body, "name") == Some(JStr(r.value.name))
      && Prop(body, "description") == Some(JStr(r.value.description))
      && Prop(body, "stage") == Some(JStr(r.value.stage))
      && Prop(body, "fundingStage") == Some(JStr(r.value.fundingStage))
      && Prop(body, "categories") == Some(StringArray(r.value.categories))
  {
    var name := AsString(Prop(body, "name"));
    var description := AsString(Prop(body, "description"));
    var stage := AsString(Prop(body, "stage"));
    var fundingStage := AsString(Prop(body, "fundingStage"));
    var categories := AsStringArray(Prop(body, "categories"));
    if name.Some? && description.Some? && stage.Some? && fundingStage.Some? && categories.Some? then
      var req := AnalyzeRequest(name.value, description.value, stage.value, fundingStage.value, categories.value);
      if ValidRequest(req) then
        assert Prop(body, "categories").value.items == StringArray(req.categories).items;
        Some(req)
      else None
    else None
  }

  /** A list of strings as a JSON array. */
  function StringArray(xs: seq<string>): (r: Json)
    ensures r.JArr? && |r.items| == |xs| && forall i :: 0 <= i < |xs| ==> r.items[i] == JStr(xs[i])
  {
    JArr(seq(|xs|, i requires 0 <= i < |xs| => JStr(xs[i])))
  }

  /** A request as a JSON body, next to any further keys the client may send. */
  function RequestJson(r: AnalyzeRequest, extra: map<string, Json>): Json {
    JObj(extra + map[
      "name" := JStr(r.name),
      "description" := JStr(r.description),
      "stage" := JStr(r.stage),
      "fundingStage" := JStr(r.fundingStage),
      "categories" := StringArray(r.categories)])
  }

  /**
   * A well-typed body is accepted exactly when the five length constraints
   * hold, and then it parses back to the same request whatever else it holds.
   */
  lemma AcceptedIffConstraints(r: AnalyzeRequest, extra: map<string, Json>)
    ensures SafeParse(RequestJson(r, extra)).Some? <==>
      |r.name| >= 1 && |r.description| >= 50 && |r.stage| >= 1 && |r.fundingStage| >= 1 && |r.categories| >= 1
    ensures SafeParse(RequestJson(r, extra)).Some? ==> SafeParse(RequestJson(r, extra)).value == r
  {
    var body := RequestJson(r, extra);
    var cats := Strings(StringArray(r.categories).items);
    assert cats.Some?;
    assert cats.value == r.categories;
  }

  /** Category strings are not checked: empty strings, duplicates and unknown values all pass. */
  lemma CategoriesUnconstrained(r: AnalyzeRequest)
    requires |r.name| >= 1 && |r.description| >= 50 && |r.stage| >= 1 && |r.fundingStage| >= 1
    requires r.categories == ["", "Identity/Privacy", "", "No such category"]
    ensures SafeParse(RequestJson(r, map[])) == Some(r)
  {
    AcceptedIffConstraints(r, map[]);
  }

  /** A body that is not an object, or lacks a field, is refused. */
  lemma MissingFieldRefused(body: Json, key: string)
    requires key in {"name", "description", "stage", "fundingStage", "categories"}
    requires Prop(body, key).None?
    ensures SafeParse(body).None?
  {
  }

  /** A normalised partner recommendation as the analysis produces it (`type` is `kind` here). */
  datatype Partner = Partner(
    name: string,
    kind: string,
    description: string,
    reasoning: string,
    matchScore: int,
    missionScore: int,
    technicalScore: int,
    strategicScore: int,
    community: string,
    tvl: string)

  /** All four scores of a partner lie in [1, 100]. */
  predicate ScoresInRange(p: Partner) {
    && 1 <= p.matchScore <= 100 && 1 <= p.missionScore <= 100
    && 1 <= p.technicalScore <= 100 && 1 <= p.strategicScore <= 100
  }

  /** The row handed to the store; `community` and `tvl` are optional (`None` is `undefined`). */
  datatype InsertRecommendation = InsertRecommendation(
    projectId: int,
    name: string,
    kind: string,
    description: string,
    reasoning: string,
    matchScore: int,
    missionScore: int,
    technicalScore: int,
    strategicScore: int,
    community: Option<string>,
    tvl: Option<string>)

  /**
   * A stored recommendation. Only `community` and `tvl` are nullable
   * (`None` is `null`); the four scores are integers that are never null.
   */
  datatype Recommendation = Recommendation(
    id: int,
    projectId: int,
    name: string,
    kind: string,
    description: string,
    reasoning: string,
    matchScore: int,
    missionScore: int,
    technicalScore: int,
    strategicScore: int,
    community: Option<string>,
    tvl: Option<string>)

  /** The row handed to the store when a project is created; `analysisResults` is optional. */
  datatype InsertProject = InsertProject(
    name: string,
    description: string,
    stage: string,
    fundingStage: string,
    categories: seq<string>,
    analysisResults: Option<Json>)

  /** A stored project; `analysisResults` is a JSON column (`JNull` when empty). */
  datatype Project = Project(
    id: int,
    name: string,
    description: string,
    stage: string,
    fundingStage: string,
    categories: seq<string>,
    analysisResults: Json)

  /** `Partial<Project>`: each field either given or absent. */
  datatype ProjectPatch = ProjectPatch(
    id: Option<int>,
    name: Option<string>,
    description: Option<string>,
    stage: Option<string>,
    fundingStage: Option<string>,
    categories: Option<seq<string>>,
    analysisResults: Option<Json>)

  function Pick<T>(given: Option<T>, current: T): T {
    if given.Some? then given.value else current
  }

  /** `{ ...p, ...d }`: every field `d` gives overrides the one in `p`. */
  function Overlay(p: Project, d: ProjectPatch): (r: Project)
    ensures d.id.Some? ==> r.id == d.id.value
    ensures d.id.None? ==> r.id == p.id
    ensures d.name.Some? ==> r.name == d.name.value
    ensures d.name.None? ==> r.name == p.name
    ensures d.description.Some? ==> r.description == d.description.value
    ensures d.description.None? ==> r.description == p.description
    ensures d.stage.Some? ==> r.stage == d.stage.value
    ensures d.stage.None? ==> r.stage == p.stage
    ensures d.fundingStage.Some? ==> r.fundingStage == d.fundingStage.value
    ensures d.fundingStage.None? ==> r.fundingStage == p.fundingStage
    ensures d.categories.Some? ==> r.categories == d.categories.value
    ensures d.categories.None? ==> r.categories == p.categories
    ensures d.analysisResults.Some? ==> r.analysisResults == d.analysisResults.value
    ensures d.analysisResults.None? ==> r.analysisResults == p.analysisResults
  {
    Project(
      Pick(d.id, p.id),
      Pick(d.name, p.name),
      Pick(d.description, p.description),
      Pick(d.stage, p.stage),
      Pick(d.fundingStage, p.fundingStage),
      Pick(d.categories, p.categories),
      Pick(d.analysisResults, p.analysisResults))
  }

  /** A patch that sets only the analysis results, as both analysis routes send. */
  function ResultsPatch(results: Json): ProjectPatch {
    ProjectPatch(None, None, None, None, None, None, Some(results))
  }

  /** Overlaying the same patch twice is the same as overlaying it once. */
  lemma OverlayIdempotent(p: Project, d: ProjectPatch)
    ensures Overlay(Overlay(p, d), d) == Overlay(p, d)
  {
  }
}
