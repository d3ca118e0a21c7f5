/** A search specification (SearchParams): every criterion is optional. */
module Params {
  import opened Wrappers

  /** A `None` flag disables its predicate; an empty match list together with an
      empty ignore list disables the member-set predicate of that kind. */
  datatype SearchParams = SearchParams(
    isPublic: Option<bool>,
    isAbstract: Option<bool>,
    isInterface: Option<bool>,
    isEnum: Option<bool>,
    isNested: Option<bool>,
    isSealed: Option<bool>,
    hasAttribute: Option<bool>,
    isDerived: Option<bool>,
    hasGenericParameters: Option<bool>,
    matchBaseClass: Option<string>,
    ignoreBaseClass: Option<string>,
    constructorParameterCount: Option<int>,
    methodCount: Option<int>,
    matchMethods: seq<string>,
    ignoreMethods: seq<string>,
    matchFields: seq<string>,
    ignoreFields: seq<string>,
    matchProperties: seq<string>,
    ignoreProperties: seq<string>,
    matchNestedTypes: seq<string>,
    ignoreNestedTypes: seq<string>)

  /** The token that, in an ignore list, stands for "every member of this kind". */
  const Wildcard: string := "*"
}
