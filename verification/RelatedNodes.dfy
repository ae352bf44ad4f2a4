// related_node_rows: the neighbours of a set of nodes, ranked by their summed edge scores.
module RelatedNodes {
  import opened Sequences
  import opened Sorting
  import opened CodeGraph

  // nodes may lack a node; then its record is inferred from its name. hubName tells
  // the file names that count as hubs whatever their degree.
  datatype Payload = Payload(
    nodes: seq<NodeRecord>,
    edges: seq<Edge>,
    infer: string -> NodeRecord,
    hubName: string -> bool)

  datatype Direction = In | Out

  datatype Reason = Reason(direction: Direction, relation: Relation, confidence: string, via: string)

  datatype Row = Row(node: string, kind: Kind, area: string, degree: nat, hub: bool, score: int, reasons: seq<Reason>)

  const HUB_DEGREE_THRESHOLD := 30

  function EdgeWeight(relation: Relation): int {
    match relation
    case Imports => 7
    case TestNameTargets => 7
    case FileRef => 5
    case ChartSchema => 4
    case ChartValues => 4
    case ChartMember => 3
    case DocLink => 3
    case OtherRelation(_) => 1
  }

  function KindWeight(kind: Kind): int {
    match kind
    case Test => 8
    case Entrypoint => 6
    case Config => 5
    case Script => 5
    case Doc => 4
    case Code => 4
    case Package => 2
    case OtherKind(_) => 1
  }

  predicate IsHub(payload: Payload, node: string, degree: nat) {
    degree >= HUB_DEGREE_THRESHOLD || payload.hubName(node)
  }

  function HubPenalty(payload: Payload, node: string, kind: Kind, degree: nat): int {
    if !IsHub(payload, node, degree) then 0
    else if kind.Doc? || kind.Script? || kind.Config? then 8
    else 3
  }

  // ---- Degrees and records -----------------------------------------------------

  // How often the edges end in node; a loop counts twice.
  function Degree(edges: seq<Edge>, node: string): nat {
    if |edges| == 0 then 0
    else
      var e := edges[|edges| - 1];
      Degree(edges[..|edges| - 1], node)
      + (if e.source == node then 1 else 0) + (if e.target == node then 1 else 0)
  }

  function Count(counter: map<string, nat>, key: string): nat {
    if key in counter then counter[key] else 0
  }

  // degree_counts
  method DegreeCounts(edges: seq<Edge>) returns (degree: map<string, nat>)
    ensures forall node :: Count(degree, node) == Degree(edges, node)
  {
    degree := map[];
    for i := 0 to |edges|
      invariant forall node :: Count(degree, node) == Degree(edges[..i], node)
    {
      var edge := edges[i];
      assert edges[..i + 1][..i] == edges[..i];
      degree := degree[edge.source := Count(degree, edge.source) + 1];
      degree := degree[edge.target := Count(degree, edge.target) + 1];
    }
    assert edges[..|edges|] == edges;
  }

  // The first record of node, or the inferred one.
  function RecordOf(payload: Payload, from: nat, node: string): NodeRecord
    requires from <= |payload.nodes|
    decreases |payload.nodes| - from
  {
    if from == |payload.nodes| then payload.infer(node)
    else if payload.nodes[from].id == node then payload.nodes[from]
    else RecordOf(payload, from + 1, node)
  }

  method FindRecord(payload: Payload, node: string) returns (record: NodeRecord)
    ensures record == RecordOf(payload, 0, node)
  {
    for i := 0 to |payload.nodes|
      invariant RecordOf(payload, i, node) == RecordOf(payload, 0, node)
    {
      if payload.nodes[i].id == node {
        return payload.nodes[i];
      }
    }
    record := payload.infer(node);
  }

  // ---- Rows ----------------------------------------------------------------------

  // Exactly one end of the edge is a candidate.
  predicate Crosses(e: Edge, candidates: set<string>) {
    (e.source in candidates) != (e.target in candidates)
  }

  function Other(e: Edge, candidates: set<string>): string {
    if e.source in candidates then e.target else e.source
  }

  predicate CrossesTo(e: Edge, candidates: set<string>, node: string) {
    Crosses(e, candidates) && Other(e, candidates) == node
  }

  predicate Related(edges: seq<Edge>, candidates: set<string>, node: string) {
    exists e :: e in edges && CrossesTo(e, candidates, node)
  }

  function EdgeScore(payload: Payload, e: Edge, node: string): int {
    var kind, degree := RecordOf(payload, 0, node).kind, Degree(payload.edges, node);
    EdgeWeight(e.relation) + KindWeight(kind) - HubPenalty(payload, node, kind, degree)
  }

  function EdgeReason(e: Edge, candidates: set<string>): Reason {
    var direction := if e.source in candidates then Out else In;
    Reason(direction, e.relation, e.confidence, if direction == In then e.source else e.target)
  }

  // The sum of the scores of the edges that cross to node.
  function ScoreOf(payload: Payload, candidates: set<string>, edges: seq<Edge>, node: string): int {
    if |edges| == 0 then 0
    else
      var front, e := ScoreOf(payload, candidates, edges[..|edges| - 1], node), edges[|edges| - 1];
      if CrossesTo(e, candidates, node) then front + EdgeScore(payload, e, node) else front
  }

  // One reason for every edge that crosses to node, in edge order.
  function ReasonsOf(candidates: set<string>, edges: seq<Edge>, node: string): seq<Reason> {
    if |edges| == 0 then []
    else
      var front, e := ReasonsOf(candidates, edges[..|edges| - 1], node), edges[|edges| - 1];
      if CrossesTo(e, candidates, node) then front + [EdgeReason(e, candidates)] else front
  }

  function EmptyRow(payload: Payload, node: string): Row {
    var record, degree := RecordOf(payload, 0, node), Degree(payload.edges, node);
    Row(node, record.kind, record.area, degree, IsHub(payload, node, degree), 0, [])
  }

  // The row of node after the given edges.
  function RowOf(payload: Payload, candidates: set<string>, edges: seq<Edge>, node: string): Row {
    EmptyRow(payload, node).(score := ScoreOf(payload, candidates, edges, node),
                             reasons := ReasonsOf(candidates, edges, node))
  }

  // Exactly the related nodes have a row, and it is the row of the edges so far.
  ghost predicate HoldsRows(payload: Payload, candidates: set<string>, edges: seq<Edge>, rows: map<string, Row>) {
    && (forall node :: node in rows <==> Related(edges, candidates, node))
    && (forall node :: node in rows ==> rows[node] == RowOf(payload, candidates, edges, node))
  }

  lemma {:induction false} RelatedOneMore(edges: seq<Edge>, e: Edge, candidates: set<string>)
    ensures forall node :: Related(edges + [e], candidates, node) <==>
                           Related(edges, candidates, node) || CrossesTo(e, candidates, node)
  {
    assert e in edges + [e];
    assert forall d :: d in edges + [e] <==> d in edges || d == e;
  }

  lemma {:induction false} RowOneMore(payload: Payload, candidates: set<string>, edges: seq<Edge>, e: Edge, node: string)
    ensures var front := RowOf(payload, candidates, edges, node);
            RowOf(payload, candidates, edges + [e], node) ==
            if CrossesTo(e, candidates, node) then
              front.(score := front.score + EdgeScore(payload, e, node),
                     reasons := front.reasons + [EdgeReason(e, candidates)])
            else front
  {
    assert (edges + [e])[..|edges|] == edges;
  }

  lemma {:induction false} UnrelatedRowIsEmpty(payload: Payload, candidates: set<string>, edges: seq<Edge>, node: string)
    requires !Related(edges, candidates, node)
    ensures RowOf(payload, candidates, edges, node) == EmptyRow(payload, node)
  {
    if |edges| > 0 {
      var front, e := edges[..|edges| - 1], edges[|edges| - 1];
      assert e in edges && forall d :: d in front ==> d in edges;
      UnrelatedRowIsEmpty(payload, candidates, front, node);
    }
  }

  // The rows with one more edge.
  function WithEdge(payload: Payload, candidates: set<string>, rows: map<string, Row>, e: Edge): map<string, Row> {
    if !Crosses(e, candidates) then rows
    else
      var other := Other(e, candidates);
      var row := if other in rows then rows[other] else EmptyRow(payload, other);
      rows[other := row.(score := row.score + EdgeScore(payload, e, other),
                         reasons := row.reasons + [EdgeReason(e, candidates)])]
  }

  lemma {:induction false} WithEdgeHoldsAt(payload: Payload, candidates: set<string>, edges: seq<Edge>,
                                           rows: map<string, Row>, e: Edge, node: string)
    requires HoldsRows(payload, candidates, edges, rows)
    ensures
      var rows' := WithEdge(payload, candidates, rows, e);
      && (node in rows' <==> node in rows || CrossesTo(e, candidates, node))
      && (node in rows' ==> rows'[node] == RowOf(payload, candidates, edges + [e], node))
  {
    RowOneMore(payload, candidates, edges, e, node);
    if node !in rows {
      UnrelatedRowIsEmpty(payload, candidates, edges, node);
    }
  }

  lemma {:induction false} WithEdgeHolds(payload: Payload, candidates: set<string>, edges: seq<Edge>,
                                         rows: map<string, Row>, e: Edge)
    requires HoldsRows(payload, candidates, edges, rows)
    ensures HoldsRows(payload, candidates, edges + [e], WithEdge(payload, candidates, rows, e))
  {
    var rows' := WithEdge(payload, candidates, rows, e);
    RelatedOneMore(edges, e, candidates);
    forall node
      ensures node in rows' <==> node in rows || CrossesTo(e, candidates, node)
      ensures node in rows' ==> rows'[node] == RowOf(payload, candidates, edges + [e], node)
    {
      WithEdgeHoldsAt(payload, candidates, edges, rows, e, node);
    }
  }

  // The edge loop of related_node_rows.
  method CollectRows(payload: Payload, candidates: set<string>) returns (rows: map<string, Row>)
    ensures HoldsRows(payload, candidates, payload.edges, rows)
  {
    var degree := DegreeCounts(payload.edges);
    rows := map[];
    ghost var done: seq<Edge> := [];
    for i := 0 to |payload.edges|
      invariant done == payload.edges[..i] && HoldsRows(payload, candidates, done, rows)
    {
      var edge := payload.edges[i];
      WithEdgeHolds(payload, candidates, done, rows, edge);
      rows := AddEdge(payload, candidates, degree, rows, edge);
      done := done + [edge];
    }
    assert done == payload.edges;
  }

  // One turn of that loop.
  method AddEdge(payload: Payload, candidates: set<string>, degree: map<string, nat>, rows: map<string, Row>, edge: Edge)
    returns (rows': map<string, Row>)
    requires forall node :: Count(degree, node) == Degree(payload.edges, node)
    ensures rows' == WithEdge(payload, candidates, rows, edge)
  {
    var other, direction;
    if edge.source in candidates && edge.target !in candidates {
      other, direction := edge.target, Out;
    } else if edge.target in candidates && edge.source !in candidates {
      other, direction := edge.source, In;
    } else {
      return rows;
    }
    var record := FindRecord(payload, other);
    var count := Count(degree, other);
    var score := EdgeWeight(edge.relation) + KindWeight(record.kind)
                 - HubPenalty(payload, other, record.kind, count);
    var row := if other in rows then rows[other]
               else Row(other, record.kind, record.area, count, IsHub(payload, other, count), 0, []);
    var reason := Reason(direction, edge.relation, edge.confidence, if direction == In then edge.source else edge.target);
    rows' := rows[other := row.(score := row.score + score, reasons := row.reasons + [reason])];
  }

  // ---- Ranking -----------------------------------------------------------------------

  predicate BetterRow(a: Row, b: Row) {
    a.score > b.score || (a.score == b.score && StringLe(a.node, b.node))
  }

  lemma {:induction false} BetterRowOrder()
    ensures Preorder(BetterRow)
  {
    StringOrder();
  }

  // Python's s[:limit]: a negative limit counts from the end.
  function Slice<T>(s: seq<T>, limit: int): seq<T> {
    if limit >= 0 then Take(s, limit) else Take(s, |s| + limit)
  }

  // The complete ranking: one row for every related node, best first.
  ghost predicate Ranking(payload: Payload, candidates: set<string>, all: seq<Row>) {
    && SortedBy(all, BetterRow) && NoDuplicates(all)
    && (forall row :: row in all <==>
          Related(payload.edges, candidates, row.node) && row == RowOf(payload, candidates, payload.edges, row.node))
  }

  // rows.values(), in some order.
  method Values(rows: map<string, Row>) returns (values: seq<Row>)
    requires forall node :: node in rows ==> rows[node].node == node
    ensures NoDuplicates(values)
    ensures forall row :: row in values <==> row.node in rows && row == rows[row.node]
  {
    values := [];
    var todo := rows.Keys;
    while todo != {}
      invariant todo <= rows.Keys && NoDuplicates(values)
      invariant forall row :: row in values <==> row.node in rows.Keys - todo && row == rows[row.node]
      decreases todo
    {
      var key :| key in todo;
      DistinctOneMore(values, rows[key]);
      values := values + [rows[key]];
      todo := todo - {key};
    }
  }

  method RelatedNodeRows(payload: Payload, candidates: set<string>, maxItems: int) returns (r: seq<Row>)
    ensures exists all :: Ranking(payload, candidates, all) && r == Slice(all, maxItems)
  {
    var rows := CollectRows(payload, candidates);
    var values := Values(rows);
    var all := Sort(values, BetterRow);
    assert Ranking(payload, candidates, all) by {
      BetterRowOrder();
      SortSorts(values, BetterRow);
      SortPermutes(values, BetterRow);
      MultisetMembers(values, all);
    }
    r := Slice(all, maxItems);
  }

  // There is one complete ranking, so RelatedNodeRows has one result.
  lemma {:induction false} RankingIsUnique(payload: Payload, candidates: set<string>, a: seq<Row>, b: seq<Row>)
    requires Ranking(payload, candidates, a) && Ranking(payload, candidates, b)
    ensures a == b
  {
    DistinctSameMembers(a, b);
    BetterRowOrder();
    StringOrder();
    SortedIsUnique(a, b, BetterRow);
  }

  // Truncation keeps the best: every omitted row is no better than every returned one.
  lemma {:induction false} OmittedRowsAreNoBetter(payload: Payload, candidates: set<string>, all: seq<Row>,
                                                  maxItems: nat, kept: Row, omitted: Row)
    requires Ranking(payload, candidates, all)
    requires kept in Slice(all, maxItems) && omitted in all && omitted !in Slice(all, maxItems)
    ensures BetterRow(kept, omitted) && kept.node != omitted.node
    ensures |Slice(all, maxItems)| == maxItems
  {
    var r := Slice(all, maxItems);
    var i :| 0 <= i < |r| && r[i] == kept;
    var j :| 0 <= j < |all| && all[j] == omitted;
    assert |r| < |all| ==> r == all[..maxItems];
    assert all[i] in all && r == all[..|r|];
    assert |r| <= j by {
      assert all[j] !in all[..|r|];
    }
  }

  // ---- Conservation ---------------------------------------------------------------------

  function CrossingCount(candidates: set<string>, edges: seq<Edge>): nat {
    if |edges| == 0 then 0
    else
      var front := CrossingCount(candidates, edges[..|edges| - 1]);
      if Crosses(edges[|edges| - 1], candidates) then front + 1 else front
  }

  function TotalReasons(rows: seq<Row>): nat {
    if |rows| == 0 then 0 else TotalReasons(rows[..|rows| - 1]) + |rows[|rows| - 1].reasons|
  }

  function ReasonsAt(candidates: set<string>, edges: seq<Edge>, rows: seq<Row>): nat {
    if |rows| == 0 then 0
    else ReasonsAt(candidates, edges, rows[..|rows| - 1]) + |ReasonsOf(candidates, edges, rows[|rows| - 1].node)|
  }

  ghost predicate DistinctNodes(rows: seq<Row>) {
    |rows| == 0 || ((forall row :: row in rows[..|rows| - 1] ==> row.node != rows[|rows| - 1].node)
                    && DistinctNodes(rows[..|rows| - 1]))
  }

  // One edge more adds one reason, and to one row only.
  lemma {:induction false} OneReasonMore(candidates: set<string>, edges: seq<Edge>, e: Edge, rows: seq<Row>)
    requires DistinctNodes(rows)
    ensures ReasonsAt(candidates, edges + [e], rows) == ReasonsAt(candidates, edges, rows) +
              if Crosses(e, candidates) && (exists row :: row in rows && row.node == Other(e, candidates)) then 1 else 0
  {
    assert (edges + [e])[..|edges|] == edges;
    if |rows| > 0 {
      var front, last := rows[..|rows| - 1], rows[|rows| - 1];
      OneReasonMore(candidates, edges, e, front);
      assert forall row :: row in rows <==> row in front || row == last by {
        assert rows == front + [last];
      }
    }
  }

  lemma {:induction false} ReasonsAddUp(candidates: set<string>, edges: seq<Edge>, rows: seq<Row>)
    requires DistinctNodes(rows)
    requires forall node :: Related(edges, candidates, node) ==> exists row :: row in rows && row.node == node
    ensures ReasonsAt(candidates, edges, rows) == CrossingCount(candidates, edges)
  {
    if |edges| == 0 {
      NoEdgesNoReasons(candidates, rows);
    } else {
      var front, e := edges[..|edges| - 1], edges[|edges| - 1];
      assert edges == front + [e];
      RelatedOneMore(front, e, candidates);
      ReasonsAddUp(candidates, front, rows);
      OneReasonMore(candidates, front, e, rows);
      assert Crosses(e, candidates) ==> CrossesTo(e, candidates, Other(e, candidates));
    }
  }

  lemma {:induction false} NoEdgesNoReasons(candidates: set<string>, rows: seq<Row>)
    ensures ReasonsAt(candidates, [], rows) == 0
  {
    if |rows| > 0 {
      NoEdgesNoReasons(candidates, rows[..|rows| - 1]);
    }
  }

  lemma {:induction false} RankedRowsAreDistinct(payload: Payload, candidates: set<string>, rows: seq<Row>)
    requires NoDuplicates(rows)
    requires forall row :: row in rows ==> row == RowOf(payload, candidates, payload.edges, row.node)
    ensures DistinctNodes(rows) && TotalReasons(rows) == ReasonsAt(candidates, payload.edges, rows)
  {
    if |rows| > 0 {
      var front, last := rows[..|rows| - 1], rows[|rows| - 1];
      assert rows == front + [last];
      DistinctOneMore(front, last);
      assert forall row :: row in rows <==> row in front || row == last;
      RankedRowsAreDistinct(payload, candidates, front);
    }
  }

  // Before truncation no edge is lost and none counts twice: the rows together hold one
  // reason for every edge with exactly one end among the candidates.
  lemma {:induction false} EveryCrossingEdgeHasOneReason(payload: Payload, candidates: set<string>, all: seq<Row>)
    requires Ranking(payload, candidates, all)
    ensures TotalReasons(all) == CrossingCount(candidates, payload.edges)
    ensures forall row :: row in all ==> row.node !in candidates
    ensures forall row, i :: row in all && 0 <= i < |row.reasons| ==> row.reasons[i].via == row.node
  {
    RankedRowsAreDistinct(payload, candidates, all);
    forall node | Related(payload.edges, candidates, node)
      ensures exists row :: row in all && row.node == node
    {
      assert RowOf(payload, candidates, payload.edges, node) in all;
    }
    ReasonsAddUp(candidates, payload.edges, all);
    forall row, i | row in all && 0 <= i < |row.reasons|
      ensures row.reasons[i].via == row.node
    {
      ReasonsName(candidates, payload.edges, row.node);
    }
  }

  // Whatever the direction, the reason names the row's own node.
  lemma {:induction false} ReasonsName(candidates: set<string>, edges: seq<Edge>, node: string)
    ensures forall i :: 0 <= i < |ReasonsOf(candidates, edges, node)| ==>
              ReasonsOf(candidates, edges, node)[i].via == node
  {
    if |edges| > 0 {
      ReasonsName(candidates, edges[..|edges| - 1], node);
    }
  }
}
