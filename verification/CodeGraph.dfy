// The records of a code graph.
module CodeGraph {

  datatype Relation =
    | Imports | TestNameTargets | FileRef | ChartSchema | ChartValues | ChartMember | DocLink
    | OtherRelation(name: string)

  datatype Kind =
    | Test | Entrypoint | Config | Script | Doc | Code | Package
    | OtherKind(name: string)

  datatype Edge = Edge(source: string, target: string, relation: Relation, confidence: string)

  datatype NodeRecord = NodeRecord(id: string, kind: Kind, area: string)
}
