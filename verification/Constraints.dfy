/** RFC 31 constraints, in the four operators the jobspecs use. */
module Constraints {
  /** A node-typed vertex of the graph or of an allocation, with its property keys. */
  datatype Vertex = Vertex(name: string, properties: seq<string>)

  datatype Constraint =
    | Properties(names: seq<string>)
    | Hostlist(hosts: seq<string>)
    | Not(arg: Constraint)
    | And(args: seq<Constraint>)

  /** Property matching is key presence; nothing looks at a property's value. */
  predicate Satisfies(v: Vertex, c: Constraint) {
    match c
    case Properties(names) => forall n :: n in names ==> n in v.properties
    case Hostlist(hosts) => v.name in hosts
    case Not(arg) => !Satisfies(v, arg)
    case And(args) => forall i :: 0 <= i < |args| ==> Satisfies(v, args[i])
  }
}
