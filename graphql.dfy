/**
 * The parts of a parsed GraphQL operation the arguments generator reads:
 * type references (section 2.11, "Type References", of the GraphQL
 * specification, October 2021) and variable definitions.
 */
module GraphQL {

  /**
   * A type reference node. `Other` stands for any node class outside the
   * grammar `Named | List | NonNull`, which the generator rejects.
   */
  datatype TypeRef = Named(name: string) | ListT(of: TypeRef) | NonNull(of: TypeRef) | Other {

    /** Every node on the spine is `Named`, `List` or `NonNull`. */
    predicate IsValid() {
      match this
      case Named(_) => true
      case ListT(t) => t.IsValid()
      case NonNull(t) => t.IsValid()
      case Other => false
    }

    /** The named type at the bottom of the reference. */
    function BaseName(): string
      requires IsValid()
    {
      match this
      case Named(n) => n
      case ListT(t) => t.BaseName()
      case NonNull(t) => t.BaseName()
    }

    /** The number of `List` wrappers on the spine. */
    function ListDepth(): nat {
      match this
      case Named(_) => 0
      case ListT(t) => 1 + t.ListDepth()
      case NonNull(t) => t.ListDepth()
      case Other => 0
    }
  }

  /** `$name: type` in an operation's variable definitions. */
  datatype VariableDefinition = VariableDefinition(name: string, typ: TypeRef)
}
