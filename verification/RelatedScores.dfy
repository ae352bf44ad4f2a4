// What the rows of related nodes say: their reasons edge by edge, their scores by what the
// reasons are, and their order.
module RelatedScores {
  import opened Sequences
  import opened Sorting
  import opened CodeGraph
  import opened RelatedNodes

  // ---- Reasons ---------------------------------------------------------------------------

  // The edge joins node, which is no candidate, with a candidate.
  ghost predicate Reaches(e: Edge, candidates: set<string>, node: string) {
    && node !in candidates
    && ((e.source in candidates && e.target == node) || (e.target in candidates && e.source == node))
  }

  // at are the places of the edges that reach node, in ascending order.
  ghost predicate Places(candidates: set<string>, edges: seq<Edge>, node: string, at: seq<nat>) {
    && (forall i, j :: 0 <= i < j < |at| ==> at[i] < at[j])
    && (forall k: nat :: k in at <==> k < |edges| && Reaches(edges[k], candidates, node))
  }

  // One reason for each of these edges: which way it leads, what it is, and the node.
  ghost predicate Explains(candidates: set<string>, edges: seq<Edge>, node: string, at: seq<nat>, reasons: seq<Reason>) {
    && |reasons| == |at|
    && forall i :: 0 <= i < |at| && at[i] < |edges| ==>
         var e := edges[at[i]];
         reasons[i] == Reason(if e.source == node then In else Out, e.relation, e.confidence, node)
  }

  lemma {:induction false} OneEdgeMore(candidates: set<string>, front: seq<Edge>, e: Edge, node: string,
                                       at: seq<nat>, reasons: seq<Reason>)
    requires Places(candidates, front, node, at) && Explains(candidates, front, node, at, reasons)
    ensures
      var edges := front + [e];
      if CrossesTo(e, candidates, node) then
        && Places(candidates, edges, node, at + [|front|])
        && Explains(candidates, edges, node, at + [|front|], reasons + [EdgeReason(e, candidates)])
      else
        Places(candidates, edges, node, at) && Explains(candidates, edges, node, at, reasons)
  {
    var edges := front + [e];
    forall i | 0 <= i < |at|
      ensures at[i] < |front|
    {
      assert at[i] in at;
    }
    forall k: nat
      ensures k < |edges| && Reaches(edges[k], candidates, node) <==>
              (k < |front| && Reaches(front[k], candidates, node)) || (k == |front| && CrossesTo(e, candidates, node))
    {
    }
  }

  lemma {:induction false} ReasonsExplain(candidates: set<string>, edges: seq<Edge>, node: string) returns (at: seq<nat>)
    ensures Places(candidates, edges, node, at)
    ensures Explains(candidates, edges, node, at, ReasonsOf(candidates, edges, node))
  {
    at := [];
    if |edges| > 0 {
      var front, e := edges[..|edges| - 1], edges[|edges| - 1];
      var before := ReasonsExplain(candidates, front, node);
      assert edges == front + [e];
      OneEdgeMore(candidates, front, e, node, before, ReasonsOf(candidates, front, node));
      at := if CrossesTo(e, candidates, node) then before + [|front|] else before;
    }
  }

  // ---- Scores ------------------------------------------------------------------------------

  // How many of the reasons name that relation.
  ghost function Named(reasons: seq<Reason>, relation: Relation): nat {
    if |reasons| == 0 then 0
    else Named(reasons[..|reasons| - 1], relation) + if reasons[|reasons| - 1].relation == relation then 1 else 0
  }

  // 7 for an import or a test target, 5 for a file reference, 4 for a chart schema or chart
  // values, 3 for a chart member or a link, and 1 for any other reason.
  ghost function Worth(reasons: seq<Reason>): int {
    |reasons|
    + 6 * (Named(reasons, Imports) + Named(reasons, TestNameTargets))
    + 4 * Named(reasons, FileRef)
    + 3 * (Named(reasons, ChartSchema) + Named(reasons, ChartValues))
    + 2 * (Named(reasons, ChartMember) + Named(reasons, DocLink))
  }

  lemma {:induction false} OneReasonIsWorth(reasons: seq<Reason>, r: Reason)
    ensures Worth(reasons + [r]) == Worth(reasons) + EdgeWeight(r.relation)
  {
    assert (reasons + [r])[..|reasons|] == reasons;
  }

  ghost predicate IsHubHere(payload: Payload, node: string) {
    Degree(payload.edges, node) >= 30 || payload.hubName(node)
  }

  // Every reason of a row adds what its kind is worth, less the charge for a hub.
  ghost function PerReason(kind: Kind, hub: bool): int {
    (match kind
     case Test => 8
     case Entrypoint => 6
     case Config => if hub then -3 else 5
     case Script => if hub then -3 else 5
     case Doc => if hub then -4 else 4
     case Code => 4
     case Package => 2
     case OtherKind(_) => 1)
    - if hub && kind != Config && kind != Script && kind != Doc then 3 else 0
  }

  lemma {:induction false} EdgeIsWorth(payload: Payload, e: Edge, node: string)
    ensures EdgeScore(payload, e, node)
         == EdgeWeight(e.relation) + PerReason(RecordOf(payload, 0, node).kind, IsHubHere(payload, node))
  {
  }

  lemma {:induction false} ScoreAddsUp(payload: Payload, candidates: set<string>, edges: seq<Edge>, node: string, each: int)
    requires each == PerReason(RecordOf(payload, 0, node).kind, IsHubHere(payload, node))
    ensures ScoreOf(payload, candidates, edges, node)
         == Worth(ReasonsOf(candidates, edges, node)) + |ReasonsOf(candidates, edges, node)| * each
  {
    if |edges| > 0 {
      var front, e := edges[..|edges| - 1], edges[|edges| - 1];
      var reasons := ReasonsOf(candidates, front, node);
      ScoreAddsUp(payload, candidates, front, node, each);
      if CrossesTo(e, candidates, node) {
        OneReasonIsWorth(reasons, EdgeReason(e, candidates));
        EdgeIsWorth(payload, e, node);
        assert (|reasons| + 1) * each == |reasons| * each + each;
      }
    }
  }

  // The first record of that id, or what is inferred of it.
  lemma {:induction false} RecordIsFirst(payload: Payload, from: nat, node: string)
    requires from <= |payload.nodes|
    ensures
      || (exists i :: from <= i < |payload.nodes| && payload.nodes[i].id == node
            && RecordOf(payload, from, node) == payload.nodes[i]
            && forall k :: from <= k < i ==> payload.nodes[k].id != node)
      || ((forall k :: from <= k < |payload.nodes| ==> payload.nodes[k].id != node)
          && RecordOf(payload, from, node) == payload.infer(node))
    decreases |payload.nodes| - from
  {
    if from < |payload.nodes| && payload.nodes[from].id != node {
      RecordIsFirst(payload, from + 1, node);
    }
  }

  // A row: its reasons are the edges that reach the node, in order, its kind and area are those
  // of the record, and its score is what its reasons are worth.
  lemma {:induction false} RowsMean(payload: Payload, candidates: set<string>, all: seq<Row>, row: Row)
    returns (at: seq<nat>)
    requires Ranking(payload, candidates, all) && row in all
    ensures Places(candidates, payload.edges, row.node, at)
    ensures Explains(candidates, payload.edges, row.node, at, row.reasons) && row.reasons != []
    ensures row.degree == Degree(payload.edges, row.node) && row.hub == IsHubHere(payload, row.node)
    ensures row.kind == RecordOf(payload, 0, row.node).kind && row.area == RecordOf(payload, 0, row.node).area
    ensures row.score == Worth(row.reasons) + |row.reasons| * PerReason(row.kind, row.hub)
  {
    at := ReasonsExplain(candidates, payload.edges, row.node);
    ScoreAddsUp(payload, candidates, payload.edges, row.node, PerReason(row.kind, row.hub));
    var e :| e in payload.edges && CrossesTo(e, candidates, row.node);
    var k :| 0 <= k < |payload.edges| && payload.edges[k] == e;
    assert Reaches(payload.edges[k], candidates, row.node);
    assert k in at;
  }

  // An edge to a hub scores less than the same edge to another node of that kind.
  lemma {:induction false} HubsScoreLess(payload: Payload, e: Edge, f: Edge, hub: string, other: string)
    requires e.relation == f.relation && IsHubHere(payload, hub) && !IsHubHere(payload, other)
    requires RecordOf(payload, 0, hub).kind == RecordOf(payload, 0, other).kind
    ensures
      var kind := RecordOf(payload, 0, hub).kind;
      EdgeScore(payload, e, hub) ==
        EdgeScore(payload, f, other) - if kind == Doc || kind == Script || kind == Config then 8 else 3
  {
  }

  // ---- Order ---------------------------------------------------------------------------------

  // Higher scores come first, and equal scores by node.
  lemma {:induction false} BestFirst(payload: Payload, candidates: set<string>, all: seq<Row>, i: nat, j: nat)
    requires Ranking(payload, candidates, all) && i < j < |all|
    ensures all[i].node != all[j].node
    ensures all[i].score > all[j].score ||
            (all[i].score == all[j].score && exists k: nat :: PartAt(all[i].node, all[j].node, k))
  {
    DistinctIndices(all);
    assert all[i] in all && all[j] in all && BetterRow(all[i], all[j]);
    StringLeMeans(all[i].node, all[j].node);
  }

  // A negative limit drops that many rows from the end.
  lemma {:induction false} SliceMeans(all: seq<Row>, limit: int)
    ensures Slice(all, limit) <= all
    ensures |Slice(all, limit)| ==
            if limit < 0 then (if -limit > |all| then 0 else |all| + limit)
            else if limit < |all| then limit else |all|
  {
  }
}
