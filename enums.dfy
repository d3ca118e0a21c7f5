/** The two enumerations the predicates speak in (EMatchResult and EFailureReason). */
module Enums {

  /** Three-valued verdict of one criterion: not requested, satisfied, violated. */
  datatype MatchResult = Disabled | Match | NoMatch

  /** Tag recorded in the tracker when a criterion rejects a candidate.
      `OtherReason` stands for the tags that only the routines outside this model
      (method and constructor checks) assign. */
  datatype FailureReason =
    | IsAbstract
    | IsEnum
    | IsNested
    | IsSealed
    | IsDerived
    | IsInterface
    | HasGenericParameters
    | IsPublic
    | HasAttribute
    | HasFields
    | HasProperties
    | HasNestedTypes
    | OtherReason(tag: string)
}
