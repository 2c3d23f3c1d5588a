/**
 * The three HTTP handlers over the store: `POST /api/analyze`,
 * `POST /api/analyze-demo` and `GET /api/projects/:id`. Each handler runs its
 * steps in order against one `MemStorage` and ends in one `Response`, which
 * stands for the status code and JSON body sent back. The backend outcome of
 * `/api/analyze` is the `Reply` parameter of the analyser.
 */
module Routes {
  import opened Js
  import opened Schema
  import opened Demo
  import opened Analyzer
  import opened Storage

  /** One partner as the analysis routes send it: the three sub-scores are nested under `scores`. */
  datatype ResponsePartner = ResponsePartner(
    name: string,
    kind: string,
    description: string,
    reasoning: string,
    matchScore: int,
    mission: int,
    technical: int,
    strategic: int,
    community: Option<string>,
    tvl: Option<string>)

  datatype Response =
    /** 400 "Invalid request data" with the validator's issues. */
    | InvalidRequest
    /** 402 "OpenAI API quota exceeded", `needsApiKey: true`. */
    | QuotaExceeded
    /** 401 "Invalid OpenAI API key", `needsApiKey: true`. */
    | InvalidApiKey
    /** 500 with a fixed message and the error's message. */
    | ServerError(message: string, error: string)
    /** 200 with the analysis; `isDemo` is sent only by the demo route. */
    | Analyzed(projectId: int, summary: Json, isDemo: bool, partners: seq<ResponsePartner>)
    /** 400 "Invalid project ID". */
    | InvalidProjectId
    /** 404 "Project not found". */
    | ProjectNotFound
    /** 200 with the project and its recommendations. */
    | ProjectFound(project: Project, recommendations: seq<Recommendation>)

  const AnalyzeFailed := "Failed to analyze project"

  function Status(r: Response): int {
    match r
    case InvalidRequest => 400
    case QuotaExceeded => 402
    case InvalidApiKey => 401
    case ServerError(_, _) => 500
    case Analyzed(_, _, _, _) => 200
    case InvalidProjectId => 400
    case ProjectNotFound => 404
    case ProjectFound(_, _) => 200
  }

  /** The inner `catch` of `/api/analyze`, and the outer one for the error it rethrows. */
  function ErrorResponse(m: string): (r: Response)
    ensures Status(r) == 402 <==> Contains(m, "429") || Contains(m, "quota")
    ensures Status(r) == 401 <==> !Contains(m, "429") && !Contains(m, "quota") && Contains(m, "401")
    ensures Status(r) == 500 <==> !Contains(m, "429") && !Contains(m, "quota") && !Contains(m, "401")
    ensures Status(r) == 500 ==> r == ServerError(AnalyzeFailed, m)
  {
    if Contains(m, "429") || Contains(m, "quota") then QuotaExceeded
    else if Contains(m, "401") then InvalidApiKey
    else ServerError(AnalyzeFailed, m)
  }

  /** The project row both analysis routes create: the request's fields and null results. */
  function ProjectRow(req: AnalyzeRequest): (row: InsertProject)
    ensures forall id ::
      NewProject(row, id) == Project(id, req.name, req.description, req.stage, req.fundingStage, req.categories, JNull)
  {
    InsertProject(req.name, req.description, req.stage, req.fundingStage, req.categories, Some(JNull))
  }

  /** `partner.community || undefined`, and likewise for `tvl`. */
  function UndefinedIfEmpty(s: string): (r: Option<string>)
    ensures r.None? <==> s == ""
    ensures r.Some? ==> r.value == s
  {
    if s == "" then None else Some(s)
  }

  /** The row one analysed partner becomes. */
  function ToInsert(p: Partner, projectId: int): (row: InsertRecommendation)
    ensures row.projectId == projectId && row.name == p.name && row.kind == p.kind
    ensures row.description == p.description && row.reasoning == p.reasoning
    ensures row.matchScore == p.matchScore && row.missionScore == p.missionScore
    ensures row.technicalScore == p.technicalScore && row.strategicScore == p.strategicScore
    ensures row.community.None? <==> p.community == ""
    ensures row.community.Some? ==> row.community.value == p.community
    ensures row.tvl.None? <==> p.tvl == ""
    ensures row.tvl.Some? ==> row.tvl.value == p.tvl
  {
    InsertRecommendation(projectId, p.name, p.kind, p.description, p.reasoning,
      p.matchScore, p.missionScore, p.technicalScore, p.strategicScore,
      UndefinedIfEmpty(p.community), UndefinedIfEmpty(p.tvl))
  }

  function InsertRows(partners: seq<Partner>, projectId: int): (rows: seq<InsertRecommendation>)
    ensures |rows| == |partners| && forall i :: 0 <= i < |partners| ==> rows[i] == ToInsert(partners[i], projectId)
  {
    seq(|partners|, i requires 0 <= i < |partners| => ToInsert(partners[i], projectId))
  }

  /** A stored recommendation as the analysis routes send it. */
  function ToResponse(rec: Recommendation): (r: ResponsePartner)
    ensures r.name == rec.name && r.kind == rec.kind && r.matchScore == rec.matchScore
    ensures r.description == rec.description && r.reasoning == rec.reasoning
    ensures r.mission == rec.missionScore && r.technical == rec.technicalScore && r.strategic == rec.strategicScore
    ensures r.community == rec.community && r.tvl == rec.tvl
  {
    ResponsePartner(rec.name, rec.kind, rec.description, rec.reasoning, rec.matchScore,
      rec.missionScore, rec.technicalScore, rec.strategicScore, rec.community, rec.tvl)
  }

  function ResponsePartners(recs: seq<Recommendation>): (r: seq<ResponsePartner>)
    ensures |r| == |recs| && forall i :: 0 <= i < |recs| ==> r[i] == ToResponse(recs[i])
  {
    seq(|recs|, i requires 0 <= i < |recs| => ToResponse(recs[i]))
  }

  /** The `analysisResults` object stored on success; only the demo route adds `isDemo`. */
  function ResultsRecord(summary: Json, count: nat, isDemo: bool): (r: Json)
    ensures Prop(r, "summary") == Some(summary) && Prop(r, "partnersCount") == Some(JNum(count))
    ensures Prop(r, "isDemo").Some? <==> isDemo
    ensures isDemo ==> Prop(r, "isDemo") == Some(JBool(true))
  {
    var base := map["summary" := summary, "partnersCount" := JNum(count)];
    JObj(if isDemo then base["isDemo" := JBool(true)] else base)
  }

  /**
   * Every recommendation in the store belongs to a stored project. The
   * handlers keep this, because each creates its project before its
   * recommendations.
   */
  ghost predicate Linked(store: MemStorage)
    reads store
    requires store.Valid()
  {
    AllKnown(store.Rows(), store.projects)
  }

  predicate AllKnown(rows: seq<Recommendation>, projects: map<int, Project>) {
    forall i :: 0 <= i < |rows| ==> rows[i].projectId in projects
  }

  /** Records of a known project appended to linked records, with no project removed, stay linked. */
  lemma AppendKnown(before: seq<Recommendation>, recs: seq<Recommendation>,
                    projects: map<int, Project>, projects': map<int, Project>, pid: int)
    requires AllKnown(before, projects) && projects.Keys <= projects'.Keys && pid in projects'
    requires forall i :: 0 <= i < |recs| ==> recs[i].projectId == pid
    ensures AllKnown(before + recs, projects')
  {
    forall i | 0 <= i < |before + recs| ensures (before + recs)[i].projectId in projects' {
      if i < |before| {
        assert (before + recs)[i] == before[i];
      } else {
        assert (before + recs)[i] == recs[i - |before|];
      }
    }
  }

  /** Records of a fresh project appended after records of other projects are exactly that project's records. */
  lemma FreshFilter(before: seq<Recommendation>, recs: seq<Recommendation>, pid: int)
    requires forall i :: 0 <= i < |before| ==> before[i].projectId != pid
    requires forall i :: 0 <= i < |recs| ==> recs[i].projectId == pid
    ensures OfProject(before + recs, pid) == recs
  {
    OfProjectAppend(before, recs, pid);
    OfProjectUniform(before, pid);
    OfProjectUniform(recs, pid);
  }

  /**
   * `POST /api/analyze`. A body the validator refuses is answered 400 and
   * the store is untouched. Otherwise the project is stored first with null
   * results; if the analysis throws, the project stays and the error is
   * classified; if it succeeds, the partners are stored, the project's
   * results are set, and the response lists the stored records in order.
   */
  method Analyze(store: MemStorage, body: Json, reply: Reply) returns (resp: Response)
    requires store.Valid() && Linked(store)
    modifies store
    ensures store.Valid() && Linked(store)
    ensures SafeParse(body).None? ==> resp == InvalidRequest && unchanged(store)
    ensures SafeParse(body).Some? ==>
      var pid := old(store.currentProjectId);
      var project := NewProject(ProjectRow(SafeParse(body).value), pid);
      && pid !in old(store.projects)
      && store.currentProjectId == pid + 1
      && match AnalyzeReply(reply)
         case Err(m) =>
           && resp == ErrorResponse(m)
           && store.projects == old(store.projects)[pid := project]
           && store.Rows() == old(store.Rows())
           && store.currentRecommendationId == old(store.currentRecommendationId)
         case Ok(a) =>
           var created := Created(InsertRows(a.partners, pid), old(store.currentRecommendationId));
           var summary := a.fields["summary"];
           && resp == Analyzed(pid, summary, false, ResponsePartners(created))
           && store.projects == old(store.projects)[pid := Overlay(project, ResultsPatch(ResultsRecord(summary, |a.partners|, false)))]
           && store.Rows() == old(store.Rows()) + created
           && OfProject(store.Rows(), pid) == created
           && store.currentRecommendationId == old(store.currentRecommendationId) + |a.partners|
  {
    var parsed := SafeParse(body);
    if parsed.None? {
      return InvalidRequest;
    }
    var project := OpenProject(store, parsed.value);
    var outcome := AnalyzeReply(reply);
    if outcome.Err? {
      return ErrorResponse(outcome.message);
    }
    var a := outcome.value;
    resp := StoreAnalysis(store, project.id, a.fields["summary"], a.partners, false);
    UpdateTwice(old(store.projects), project.id, project,
      Overlay(project, ResultsPatch(ResultsRecord(a.fields["summary"], |a.partners|, false))));
  }

  /** `POST /api/analyze-demo`: as `/api/analyze`, with the demo generator in place of the backend and `isDemo` set. */
  method AnalyzeDemo(store: MemStorage, body: Json) returns (resp: Response)
    requires store.Valid() && Linked(store)
    modifies store
    ensures store.Valid() && Linked(store)
    ensures SafeParse(body).None? ==> resp == InvalidRequest && unchanged(store)
    ensures SafeParse(body).Some? ==>
      var req := SafeParse(body).value;
      var pid := old(store.currentProjectId);
      var partners := DemoPartners(req.categories);
      var created := Created(InsertRows(partners, pid), old(store.currentRecommendationId));
      && pid !in old(store.projects)
      && store.currentProjectId == pid + 1
      && resp.Analyzed? && resp.isDemo && resp.projectId == pid
      && resp.partners == ResponsePartners(created)
      && |partners| > 0 && RoundedMean(SumMatch(partners), |partners|) >= 0
      && resp.summary == JStr(Summary(req, partners, RoundedMean(SumMatch(partners), |partners|)))
      && store.projects == old(store.projects)[pid := Overlay(NewProject(ProjectRow(req), pid),
           ResultsPatch(ResultsRecord(resp.summary, |partners|, true)))]
      && store.Rows() == old(store.Rows()) + created
      && OfProject(store.Rows(), pid) == created
      && store.currentRecommendationId == old(store.currentRecommendationId) + |partners|
  {
    var parsed := SafeParse(body);
    if parsed.None? {
      return InvalidRequest;
    }
    var project := OpenProject(store, parsed.value);
    var demo := GenerateDemoAnalysis(parsed.value);
    ghost var created := Created(InsertRows(demo.partners, project.id), store.currentRecommendationId);
    resp := StoreAnalysis(store, project.id, JStr(demo.summary), demo.partners, true);
    assert resp.partners == ResponsePartners(created);
    UpdateTwice(old(store.projects), project.id, project,
      Overlay(project, ResultsPatch(ResultsRecord(resp.summary, |demo.partners|, true))));
  }

  /** A second store under the same key replaces the first. */
  lemma UpdateTwice<K, V>(m: map<K, V>, k: K, a: V, b: V)
    ensures m[k := a][k := b] == m[k := b]
  {
  }

  /** The first write of both analysis routes: the project, under a fresh id that no stored recommendation names. */
  method OpenProject(store: MemStorage, req: AnalyzeRequest) returns (project: Project)
    requires store.Valid() && Linked(store)
    modifies store
    ensures store.Valid() && Linked(store)
    ensures project == NewProject(ProjectRow(req), old(store.currentProjectId))
    ensures project.id !in old(store.projects) && store.projects == old(store.projects)[project.id := project]
    ensures store.currentProjectId == project.id + 1
    ensures store.Rows() == old(store.Rows()) && store.currentRecommendationId == old(store.currentRecommendationId)
    ensures forall i :: 0 <= i < |store.Rows()| ==> store.Rows()[i].projectId != project.id
  {
    ghost var rows := store.Rows();
    ghost var known := store.projects;
    project := store.CreateProject(ProjectRow(req));
    assert store.Rows() == rows;
    forall i | 0 <= i < |rows| ensures rows[i].projectId in store.projects && rows[i].projectId != project.id {
      assert rows[i].projectId in known;
    }
  }

  /**
   * The success path shared by both analysis routes: store the partners of
   * the freshly created project, record the summary and count on it, and
   * answer with the stored records.
   */
  method StoreAnalysis(store: MemStorage, pid: int, summary: Json, partners: seq<Partner>, isDemo: bool)
    returns (resp: Response)
    requires store.Valid() && Linked(store)
    requires pid in store.projects
    requires forall i :: 0 <= i < |store.Rows()| ==> store.Rows()[i].projectId != pid
    modifies store
    ensures store.Valid() && Linked(store)
    ensures
      var created := Created(InsertRows(partners, pid), old(store.currentRecommendationId));
      && resp == Analyzed(pid, summary, isDemo, ResponsePartners(created))
      && store.projects == old(store.projects)[pid := Overlay(old(store.projects)[pid], ResultsPatch(ResultsRecord(summary, |partners|, isDemo)))]
      && store.Rows() == old(store.Rows()) + created
      && OfProject(store.Rows(), pid) == created
    ensures store.currentProjectId == old(store.currentProjectId)
    ensures store.currentRecommendationId == old(store.currentRecommendationId) + |partners|
  {
    ghost var before := store.Rows();
    ghost var known := store.projects;
    var recs := store.CreatePartnerRecommendations(InsertRows(partners, pid));
    var _ := store.UpdateProject(pid, ResultsPatch(ResultsRecord(summary, |recs|, isDemo)));
    resp := Analyzed(pid, summary, isDemo, ResponsePartners(recs));
    AppendKnown(before, recs, known, store.projects, pid);
    FreshFilter(before, recs, pid);
  }

  /** `parseInt` as far as the route needs it: an optional sign and the longest run of leading digits. */
  function ParseInt(s: string): (r: Option<int>)
    ensures |s| > 0 && IsDigit(s[0]) ==> r.Some? && r.value >= 0
    ensures |s| == 0 || (!IsDigit(s[0]) && s[0] != '-' && s[0] != '+') ==> r.None?
    ensures r.Some? && r.value < 0 ==> s[0] == '-'
    ensures |s| > 0 && (s[0] == '-' || s[0] == '+') ==> (r.Some? <==> |s| > 1 && IsDigit(s[1]))
    ensures r.Some? ==>
      && |s| > 0
      && r.value == (if s[0] == '-' then -1 else 1) * DecimalValue(DigitPrefix(if s[0] == '-' || s[0] == '+' then s[1..] else s))
  {
    var neg := |s| > 0 && s[0] == '-';
    var rest := if |s| > 0 && (s[0] == '-' || s[0] == '+') then s[1..] else s;
    var digits := DigitPrefix(rest);
    if |digits| == 0 then None
    else if neg then Some(-DecimalValue(digits))
    else Some(DecimalValue(digits))
  }

  /** The longest prefix of `s` made of decimal digits. */
  function DigitPrefix(s: string): (d: string)
    ensures |d| <= |s| && d == s[..|d|]
    ensures forall i :: 0 <= i < |d| ==> IsDigit(d[i])
    ensures |d| < |s| ==> !IsDigit(s[|d|])
  {
    if |s| == 0 || !IsDigit(s[0]) then [] else [s[0]] + DigitPrefix(s[1..])
  }

  /** A decimal id in the path, with or without trailing non-digits, parses to that id. */
  lemma ParseIntRendered(n: nat, tail: string)
    requires |tail| == 0 || !IsDigit(tail[0])
    ensures ParseInt(NatToString(n) + tail) == Some(n)
  {
    var s := NatToString(n);
    DigitPrefixOfDigits(s, tail);
    DecimalRoundTrip(n);
  }

  lemma {:induction false} DigitPrefixOfDigits(s: string, tail: string)
    requires forall i :: 0 <= i < |s| ==> IsDigit(s[i])
    requires |tail| == 0 || !IsDigit(tail[0])
    ensures DigitPrefix(s + tail) == s
  {
    if |s| > 0 {
      assert (s + tail)[1..] == s[1..] + tail;
      DigitPrefixOfDigits(s[1..], tail);
    } else {
      assert s + tail == tail;
    }
  }

  /** A path segment that starts with neither a sign nor a digit is not a number. */
  lemma ParseIntRejects(s: string)
    requires |s| == 0 || (!IsDigit(s[0]) && s[0] != '-' && s[0] != '+')
    ensures ParseInt(s).None?
  {
  }

  /**
   * `GET /api/projects/:id`: 400 for an id that does not parse, 404 for an
   * unknown id, otherwise the project and its recommendations in insertion
   * order. Nothing is written.
   */
  method GetProject(store: MemStorage, idParam: string) returns (resp: Response)
    requires store.Valid()
    ensures ParseInt(idParam).None? ==> resp == InvalidProjectId
    ensures ParseInt(idParam).Some? && ParseInt(idParam).value !in store.projects ==> resp == ProjectNotFound
    ensures ParseInt(idParam).Some? && ParseInt(idParam).value in store.projects ==>
      var id := ParseInt(idParam).value;
      && resp.ProjectFound? && resp.project == store.projects[id]
      && (forall r :: r in resp.recommendations <==> r in store.Rows() && r.projectId == id)
      && resp.recommendations == OfProject(store.Rows(), id)
  {
    var id := ParseInt(idParam);
    if id.None? {
      return InvalidProjectId;
    }
    var project := store.GetProject(id.value);
    if project.None? {
      return ProjectNotFound;
    }
    var recs := store.GetPartnerRecommendationsByProjectId(id.value);
    OfProjectMembers(store.Rows(), id.value);
    resp := ProjectFound(project.value, recs);
  }

  /** A backend error mentioning 429 always reaches the client as 402, whatever else it says. */
  lemma BackendQuotaIs402(m: string)
    requires Contains(m, "429")
    ensures Status(ErrorResponse(Rewrite(m))) == 402
  {
    QuotaMessageMentionsQuota();
  }

  /**
   * Any other backend error is classified on its own text, since the
   * analyser's prefix adds no marker: "quota" gives 402, then "401" gives
   * 401, and everything else 500 with the prefixed message.
   */
  lemma BackendErrorClassified(m: string)
    requires !Contains(m, "429")
    ensures Status(ErrorResponse(Rewrite(m))) == 402 <==> Contains(m, "quota")
    ensures Status(ErrorResponse(Rewrite(m))) == 401 <==> !Contains(m, "quota") && Contains(m, "401")
    ensures Status(ErrorResponse(Rewrite(m))) == 500 <==> !Contains(m, "quota") && !Contains(m, "401")
  {
    RewriteKeepsMarkers(m);
  }

  /** A reply of the wrong shape, or a null reply or partner entry, is a 500 carrying the prefixed message. */
  lemma MalformedReplyIs500(v: Json)
    requires !WellShaped(v) || (Prop(v, "partners").Some? && Prop(v, "partners").value.JArr?
      && JNull in Prop(v, "partners").value.items)
    ensures AnalyzeReply(Replied(v)).Err?
    ensures Status(ErrorResponse(AnalyzeReply(Replied(v)).message)) == 500
  {
    OwnMessagesPlain();
    if v.JNull? {
      PlainErrorUnmarked(NullSummaryRead);
    } else if !WellShaped(v) {
      PlainErrorUnmarked(InvalidFormat);
    } else {
      PlainErrorUnmarked(NullPartnerRead);
    }
  }

  /**
   * What a partner becomes on its way through the store to the response:
   * the same name, type, text and scores, the sub-scores nested, and an
   * empty `community` or `tvl` sent as null.
   */
  lemma PartnerThroughStore(p: Partner, pid: int, id: int)
    ensures
      var r := ToResponse(NewRecommendation(ToInsert(p, pid), id));
      && r.name == p.name && r.kind == p.kind && r.description == p.description && r.reasoning == p.reasoning
      && r.matchScore == p.matchScore && r.mission == p.missionScore
      && r.technical == p.technicalScore && r.strategic == p.strategicScore
      && (r.community.None? <==> p.community == "") && (r.community.Some? ==> r.community.value == p.community)
      && (r.tvl.None? <==> p.tvl == "") && (r.tvl.Some? ==> r.tvl.value == p.tvl)
  {
  }
}
