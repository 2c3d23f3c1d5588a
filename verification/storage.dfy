/**
 * `MemStorage`: projects and partner recommendations kept in two maps keyed
 * by ids drawn from two counters that start at 1. A JavaScript `Map`
 * iterates in insertion order; the order of the recommendation map is kept
 * as the sequence of its keys.
 */
module Storage {
  import opened Js
  import opened Schema

  /** The record `createProject` stores: the row, its id, and `analysisResults || null`. */
  function NewProject(row: InsertProject, id: int): (p: Project)
    ensures p.id == id
    ensures p.name == row.name && p.description == row.description && p.stage == row.stage
    ensures p.fundingStage == row.fundingStage && p.categories == row.categories
    ensures TruthyOpt(row.analysisResults) ==> p.analysisResults == row.analysisResults.value
    ensures !TruthyOpt(row.analysisResults) ==> p.analysisResults == JNull
  {
    Project(id, row.name, row.description, row.stage, row.fundingStage, row.categories,
      if TruthyOpt(row.analysisResults) then row.analysisResults.value else JNull)
  }

  /** `s ? s : null` for an optional string. */
  function NullIfFalsy(s: Option<string>): (r: Option<string>)
    ensures r.Some? <==> s.Some? && s.value != ""
    ensures r.Some? ==> r == s
  {
    if s.Some? && s.value != "" then s else None
  }

  /** The record `createPartnerRecommendations` stores for one row. */
  function NewRecommendation(row: InsertRecommendation, id: int): (r: Recommendation)
    ensures r.id == id && r.projectId == row.projectId
    ensures r.name == row.name && r.kind == row.kind && r.description == row.description && r.reasoning == row.reasoning
    ensures r.matchScore == row.matchScore && r.missionScore == row.missionScore
    ensures r.technicalScore == row.technicalScore && r.strategicScore == row.strategicScore
    ensures r.community == NullIfFalsy(row.community) && r.tvl == NullIfFalsy(row.tvl)
  {
    Recommendation(id, row.projectId, row.name, row.kind, row.description, row.reasoning,
      row.matchScore, row.missionScore, row.technicalScore, row.strategicScore,
      NullIfFalsy(row.community), NullIfFalsy(row.tvl))
  }

  /** The stored records in the map's iteration order. */
  function RowsOf(order: seq<int>, recs: map<int, Recommendation>): (rows: seq<Recommendation>)
    requires forall i :: 0 <= i < |order| ==> order[i] in recs
    ensures |rows| == |order| && forall i :: 0 <= i < |order| ==> rows[i] == recs[order[i]]
  {
    seq(|order|, i requires 0 <= i < |order| => recs[order[i]])
  }

  /** `rows.filter(rec => rec.projectId === projectId)` */
  function OfProject(rows: seq<Recommendation>, projectId: int): (r: seq<Recommendation>)
    ensures |r| <= |rows|
    ensures forall i :: 0 <= i < |r| ==> r[i].projectId == projectId
  {
    if |rows| == 0 then [] else
      var last := rows[|rows| - 1];
      OfProject(rows[..|rows| - 1], projectId) + (if last.projectId == projectId then [last] else [])
  }

  /** The filter keeps exactly the records of the project. */
  lemma {:induction false} OfProjectMembers(rows: seq<Recommendation>, projectId: int)
    ensures forall r :: r in OfProject(rows, projectId) <==> r in rows && r.projectId == projectId
  {
    if |rows| > 0 {
      var init := rows[..|rows| - 1];
      OfProjectMembers(init, projectId);
      assert rows == init + [rows[|rows| - 1]];
    }
  }

  /** Filtering a list with a new record at its end. */
  lemma OfProjectSnoc(rows: seq<Recommendation>, r: Recommendation, projectId: int)
    ensures OfProject(rows + [r], projectId)
         == OfProject(rows, projectId) + (if r.projectId == projectId then [r] else [])
  {
    assert (rows + [r])[..|rows|] == rows;
  }

  /** Filtering distributes over concatenation. */
  lemma {:induction false} OfProjectAppend(a: seq<Recommendation>, b: seq<Recommendation>, projectId: int)
    ensures OfProject(a + b, projectId) == OfProject(a, projectId) + OfProject(b, projectId)
    decreases |b|
  {
    if |b| > 0 {
      var init, last := b[..|b| - 1], b[|b| - 1];
      assert a + b == (a + init) + [last];
      assert b == init + [last];
      OfProjectSnoc(a + init, last, projectId);
      OfProjectSnoc(init, last, projectId);
      OfProjectAppend(a, init, projectId);
    } else {
      assert a + b == a;
    }
  }

  /** A list whose records all belong to the project is its own filter; a list with none of them filters to nothing. */
  lemma {:induction false} OfProjectUniform(rows: seq<Recommendation>, projectId: int)
    ensures (forall i :: 0 <= i < |rows| ==> rows[i].projectId == projectId) ==> OfProject(rows, projectId) == rows
    ensures (forall i :: 0 <= i < |rows| ==> rows[i].projectId != projectId) ==> OfProject(rows, projectId) == []
  {
    if |rows| > 0 {
      var init := rows[..|rows| - 1];
      OfProjectUniform(init, projectId);
      if forall i :: 0 <= i < |rows| ==> rows[i].projectId == projectId {
        assert forall i :: 0 <= i < |init| ==> init[i].projectId == projectId;
        assert rows == init + [rows[|rows| - 1]];
      }
      if forall i :: 0 <= i < |rows| ==> rows[i].projectId != projectId {
        assert forall i :: 0 <= i < |init| ==> init[i].projectId != projectId;
      }
    }
  }

  /** The records `createPartnerRecommendations` makes from `rows` when the counter stands at `first`. */
  function Created(rows: seq<InsertRecommendation>, first: int): (created: seq<Recommendation>)
    ensures |created| == |rows|
    ensures forall i :: 0 <= i < |rows| ==> created[i].id == first + i && created[i].projectId == rows[i].projectId
    ensures forall i :: 0 <= i < |rows| ==> created[i] == NewRecommendation(rows[i], first + i)
  {
    seq(|rows|, i requires 0 <= i < |rows| => NewRecommendation(rows[i], first + i))
  }

  class MemStorage {
    var projects: map<int, Project>
    var recommendations: map<int, Recommendation>
    /** The keys of `recommendations` in insertion order. */
    var recommendationOrder: seq<int>
    var currentProjectId: int
    var currentRecommendationId: int

    /**
     * Every project key was drawn from the project counter; every stored
     * recommendation sits under its own id, drawn from the recommendation
     * counter, and the insertion order lists each key once, ascending.
     */
    ghost predicate Valid()
      reads this
    {
      && currentProjectId >= 1
      && currentRecommendationId >= 1
      && (forall k :: k in projects ==> 1 <= k < currentProjectId)
      && RecommendationsValid(recommendationOrder, recommendations, currentRecommendationId)
    }

    /** The stored recommendations in iteration order. */
    ghost function Rows(): seq<Recommendation>
      reads this
      requires Valid()
    {
      RowsOf(recommendationOrder, recommendations)
    }

    constructor ()
      ensures Valid()
      ensures projects == map[] && recommendations == map[] && recommendationOrder == []
      ensures currentProjectId == 1 && currentRecommendationId == 1
    {
      projects := map[];
      recommendations := map[];
      recommendationOrder := [];
      currentProjectId := 1;
      currentRecommendationId := 1;
    }

    /** `createProject`: stores the row under a fresh id taken from the counter, which then advances by one. */
    method CreateProject(row: InsertProject) returns (p: Project)
      requires Valid()
      modifies this
      ensures Valid()
      ensures p == NewProject(row, old(currentProjectId))
      ensures p.id !in old(projects) && forall k :: k in old(projects) ==> k < p.id
      ensures projects == old(projects)[p.id := p]
      ensures currentProjectId == old(currentProjectId) + 1
      ensures recommendations == old(recommendations) && recommendationOrder == old(recommendationOrder)
      ensures currentRecommendationId == old(currentRecommendationId)
    {
      var id := currentProjectId;
      currentProjectId := currentProjectId + 1;
      p := NewProject(row, id);
      projects := projects[id := p];
    }

    /** `getProject`: the stored project, or `undefined`. */
    method GetProject(id: int) returns (r: Option<Project>)
      ensures r.Some? <==> id in projects
      ensures r.Some? ==> r.value == projects[id]
    {
      r := if id in projects then Some(projects[id]) else None;
    }

    /** `updateProject`: overlays `data` on the stored project under the same key; an absent id changes nothing. */
    method UpdateProject(id: int, data: ProjectPatch) returns (r: Option<Project>)
      requires Valid()
      modifies this
      ensures Valid()
      ensures id !in old(projects) ==> r == None && projects == old(projects)
      ensures id in old(projects) ==>
        r == Some(Overlay(old(projects)[id], data)) && projects == old(projects)[id := r.value]
      ensures recommendations == old(recommendations) && recommendationOrder == old(recommendationOrder)
      ensures currentProjectId == old(currentProjectId) && currentRecommendationId == old(currentRecommendationId)
    {
      if id !in projects {
        return None;
      }
      var updated := Overlay(projects[id], data);
      projects := projects[id := updated];
      r := Some(updated);
    }

    /**
     * `createPartnerRecommendations`: one record per row, in row order, with
     * consecutive ids from the recommendation counter, appended to the map.
     */
    method CreatePartnerRecommendations(rows: seq<InsertRecommendation>) returns (created: seq<Recommendation>)
      requires Valid()
      modifies this
      ensures Valid()
      ensures created == Created(rows, old(currentRecommendationId))
      ensures Rows() == old(Rows()) + created
      ensures currentRecommendationId == old(currentRecommendationId) + |rows|
      ensures forall k :: k in old(recommendations) ==> k in recommendations && recommendations[k] == old(recommendations)[k]
      ensures projects == old(projects) && currentProjectId == old(currentProjectId)
    {
      created := [];
      var i := 0;
      while i < |rows|
        invariant 0 <= i <= |rows|
        invariant Valid()
        invariant |created| == i
        invariant currentRecommendationId == old(currentRecommendationId) + i
        invariant forall j :: 0 <= j < i ==> created[j] == NewRecommendation(rows[j], old(currentRecommendationId) + j)
        invariant Rows() == old(Rows()) + created
        invariant forall k :: k in old(recommendations) ==> k in recommendations && recommendations[k] == old(recommendations)[k]
        invariant projects == old(projects) && currentProjectId == old(currentProjectId)
      {
        var rec := StoreRecommendation(rows[i]);
        created := created + [rec];
        i := i + 1;
      }
      assert created == Created(rows, old(currentRecommendationId));
    }

    /** One iteration of `createPartnerRecommendations`: the next id, the record, and its place at the end of the map. */
    method StoreRecommendation(row: InsertRecommendation) returns (rec: Recommendation)
      requires Valid()
      modifies this
      ensures Valid()
      ensures rec == NewRecommendation(row, old(currentRecommendationId))
      ensures rec.id !in old(recommendations) && recommendations == old(recommendations)[rec.id := rec]
      ensures Rows() == old(Rows()) + [rec]
      ensures currentRecommendationId == old(currentRecommendationId) + 1
      ensures projects == old(projects) && currentProjectId == old(currentProjectId)
    {
      var id := currentRecommendationId;
      currentRecommendationId := currentRecommendationId + 1;
      rec := NewRecommendation(row, id);
      AppendRecommendation(recommendationOrder, recommendations, id, rec);
      recommendations := recommendations[id := rec];
      recommendationOrder := recommendationOrder + [id];
    }

    /** `getPartnerRecommendationsByProjectId`: the stored records of the project, in insertion order. */
    method GetPartnerRecommendationsByProjectId(projectId: int) returns (found: seq<Recommendation>)
      requires Valid()
      ensures found == OfProject(Rows(), projectId)
    {
      found := [];
      var i := 0;
      while i < |recommendationOrder|
        invariant 0 <= i <= |recommendationOrder|
        invariant found == OfProject(RowsOf(recommendationOrder[..i], recommendations), projectId)
      {
        var rec := recommendations[recommendationOrder[i]];
        FilterStep(recommendationOrder, recommendations, i, projectId);
        if rec.projectId == projectId {
          found := found + [rec];
        }
        i := i + 1;
      }
      assert recommendationOrder[..i] == recommendationOrder;
    }
  }

  /** One step of the lookup loop: the next record in iteration order is kept iff it matches. */
  lemma FilterStep(order: seq<int>, recs: map<int, Recommendation>, i: int, projectId: int)
    requires forall j :: 0 <= j < |order| ==> order[j] in recs
    requires 0 <= i < |order|
    ensures var rec := recs[order[i]];
      OfProject(RowsOf(order[..i + 1], recs), projectId)
        == OfProject(RowsOf(order[..i], recs), projectId) + (if rec.projectId == projectId then [rec] else [])
  {
    var rec := recs[order[i]];
    assert RowsOf(order[..i + 1], recs) == RowsOf(order[..i], recs) + [rec];
    OfProjectSnoc(RowsOf(order[..i], recs), rec, projectId);
  }

  /**
   * The recommendation map, its insertion order and the counter agree: the
   * order lists every key once, ascending and below the counter, and every
   * record sits under its own id.
   */
  ghost predicate RecommendationsValid(order: seq<int>, recs: map<int, Recommendation>, next: int) {
    && (forall i :: 0 <= i < |order| ==> order[i] in recs)
    && (forall k :: k in recs ==> k in order)
    && (forall i, j :: 0 <= i < j < |order| ==> order[i] < order[j])
    && (forall i :: 0 <= i < |order| ==> 1 <= order[i] < next)
    && (forall k :: k in recs ==> recs[k].id == k)
  }

  /** Storing a record under the counter's id keeps the agreement and appends the record to the iteration. */
  lemma AppendRecommendation(order: seq<int>, recs: map<int, Recommendation>, next: int, rec: Recommendation)
    requires RecommendationsValid(order, recs, next) && next >= 1
    requires rec.id == next
    ensures RecommendationsValid(order + [next], recs[next := rec], next + 1)
    ensures RowsOf(order + [next], recs[next := rec]) == RowsOf(order, recs) + [rec]
    ensures next !in recs
  {
    var order', recs' := order + [next], recs[next := rec];
    forall k | k in recs' ensures k in order' {
      if k != next { assert k in order; }
    }
  }
}
