/** The read-only, declaration-level view of one candidate type (a TypeDefinition). */
module Candidates {
  import opened Wrappers

  /** The visibility field of the type's attributes. Only `Public` satisfies
      `IsPublic`, only `NotPublic` satisfies `IsNotPublic`; the six nested kinds
      satisfy neither. */
  datatype Visibility =
    | NotPublic
    | Public
    | NestedPublic
    | NestedPrivate
    | NestedFamily
    | NestedAssembly
    | NestedFamAndAssem
    | NestedFamOrAssem
  {
    predicate IsNestedKind() { !NotPublic? && !Public? }
  }

  datatype TypeDef = TypeDef(
    visibility: Visibility,
    isAbstract: bool,
    isInterface: bool,
    isEnum: bool,
    isNested: bool,
    isSealed: bool,
    hasGenericParameters: bool,
    hasCustomAttributes: bool,
    /** whether a static constructor (type initializer) is declared */
    hasStaticConstructor: bool,
    /** name of the base type, `None` when the type has no base type */
    baseTypeName: Option<string>,
    methods: seq<string>,
    fields: seq<string>,
    properties: seq<string>,
    nestedTypes: seq<string>,
    /** parameter count of each declared constructor */
    constructorArities: seq<nat>)
  {
    predicate IsPublic() { visibility == Public }
    predicate IsNotPublic() { visibility == NotPublic }
    predicate HasFields() { |fields| > 0 }
    predicate HasProperties() { |properties| > 0 }
    predicate HasNestedTypes() { |nestedTypes| > 0 }
  }
}
