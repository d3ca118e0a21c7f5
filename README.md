# Structural search predicates of AssemblyRemapper

AssemblyRemapper re-identifies renamed or obfuscated types across two builds of a
.NET module. A *search specification* (`SearchParams`) records structural facts
about a type known from an earlier build. Every type of the new build is a
*candidate*. For each candidate, a fresh tracker (`ScoringModel`) collects a
score and a failure reason. The structural predicates of
`AssemblyRemapper/Remapper/Search/TypeDefExtensions.cs` each check one criterion
of the specification against one candidate. Each returns a three-valued verdict
(`Disabled`, `Match` or `NoMatch`) and updates the tracker in place.

This project models those predicates:

- `wrappers.dfy`, `enums.dfy`: `Option`, the verdict type `MatchResult` and the
  failure tags `FailureReason`.
- `candidates.dfy`: the declaration-level view of a candidate type (`TypeDef`).
  It holds the visibility kind, the boolean flags, whether a static constructor
  exists, the optional base-type name and the member-name lists.
- `params.dfy`: `SearchParams`. Unset flags are `None`; member lists are
  sequences; `Wildcard` is `"*"`.
- `scoring.dfy`: the `ScoringModel` class. Its `score`, `failureReason` and
  `proposedNewName` fields are updated in place. `Tally` is the value view of
  `score` and `failureReason`.
- `aggregation.dfy`: `GetMatch`, the aggregation of sub-verdicts.
- `name_lists.dfy`: counting member names found in a match or ignore list.
- `semantics.dfy`: one pure step function per predicate. It maps the tracker
  state before the call to the verdict and the state after it. Each carries the
  contract that states what the predicate promises.
- `type_def_extensions.dfy`: the predicates as methods with `modifies` on the
  tracker. Their loops and early returns mirror the C# code, and each method is
  proved to compute its step function.
- `properties.dfy`: lemmas relating several inputs or several calls.

The routines that the predicates call but that are defined elsewhere are
parameters of the model:

- The four method sub-checks (`Methods.GetTypeWithMethods`,
  `GetTypeWithoutMethods`, `GetTypeWithNoMethods`, `GetTypeByNumberOfMethods`).
- `Constructors.GetTypeByParameterCount`.

Each is a function of type `SubCheck`. It takes the candidate, the
specification and the tracker state, and returns a verdict and a new tracker
state. `GetMatch` is specified only by its documented law. The law leaves the
verdict for a list holding only `Disabled` entries open, so that verdict is the
parameter `onEmpty`.

Where the documented behaviour and the code differ, the model follows the code:

- A rejecting predicate overwrites the failure reason. It is not kept from the
  first rejection.
- `MatchIsDerived`: a type with a base type matches `isDerived == true` even when
  that base is `ignoreBaseClass`. Also, a type without a base type matches either
  request when `matchBaseClass` is unset, because both sides compare as null.
- `MatchIsAbstract` rejects interfaces and types with a static constructor without
  recording a failure reason.
- The wildcard-empty shortcut differs by member kind:
  - fields score one point;
  - properties score nothing;
  - nested types take the wildcard from the *property* ignore list, and record
    `HasNestedTypes` on a `Match`.
- A `"*"` ignore list does not veto a candidate that has members. Such a
  candidate fails only for want of a whitelist hit, and no `HasFields` reason is
  recorded.
- `MatchMethods` rejects a specification that both names methods and ignores all
  methods, before any sub-check runs and without touching the tracker.

## Model

| member | source | states |
|---|---|---|
| `Aggregation.GetMatch` | AssemblyRemapper/Remapper/Search/TypeDefExtensions.cs:233-234 | any `NoMatch` among the sub-verdicts gives `NoMatch`; otherwise any `Match` gives `Match`; a list of only `Disabled` entries gives the unspecified `onEmpty` |
| `Aggregation.GetMatchIgnoresDisabled` | AssemblyRemapper/Remapper/Search/TypeDefExtensions.cs:194 | inserting a `Disabled` entry anywhere never changes the aggregate |
| `NameLists.Hits` | AssemblyRemapper/Remapper/Search/TypeDefExtensions.cs:265-272 | the whitelist count is at most the number of members, and it is positive iff some member is in the list |
| `NameLists.HitsAll` | AssemblyRemapper/Remapper/Search/TypeDefExtensions.cs:265-272 | the whitelist count equals the member count iff every member is in the list |
| `NameLists.HitsPermutation` | AssemblyRemapper/Remapper/Search/TypeDefExtensions.cs:265-272 | the whitelist count is the same for any reordering of the members |
| `NameLists.AnyInPermutation` | AssemblyRemapper/Remapper/Search/TypeDefExtensions.cs:255-263 | whether some member is blacklisted does not depend on member order |
| `SearchSemantics.FlagStep` | AssemblyRemapper/Remapper/Search/TypeDefExtensions.cs:34-49 | a flag criterion is `Disabled` iff unset, and the tracker is then untouched; `Match` iff the flag equals the request, with exactly one point more; on a mismatch `NoMatch`, the reason overwritten with the criterion's own tag and the score unchanged |
| `SearchSemantics.AbstractStep` | AssemblyRemapper/Remapper/Search/TypeDefExtensions.cs:11-31 | when requested, an interface or a type with a static constructor gives `NoMatch` with the tracker untouched; only other types are compared on abstractness like a flag |
| `SearchSemantics.PublicStep` | AssemblyRemapper/Remapper/Search/TypeDefExtensions.cs:146-166 | `Match` (one point) iff `false` is requested and the visibility is exactly not-public, or `true` is requested and it is exactly public; any other enabled case is `NoMatch` with reason `IsPublic` |
| `SearchSemantics.DerivedStep` | AssemblyRemapper/Remapper/Search/TypeDefExtensions.cs:85-110 | `Match` iff a base exists and `true` is requested, or the base name equals `matchBaseClass` (null equal to null); one point only in the first case; a `NoMatch` records `IsDerived` unless the base name equals `ignoreBaseClass` |
| `SearchSemantics.MemberSetStep` | AssemblyRemapper/Remapper/Search/TypeDefExtensions.cs:237-354 | `Disabled` iff both lists are empty, with the tracker untouched; any member on the ignore list forces `NoMatch` with the kind's reason and no score change; the wildcard shortcut gives `Match` with the kind's tracker effect; otherwise the score grows by exactly the whitelist count, and the verdict is `Match` iff some member is whitelisted |
| `SearchSemantics.ConstructorsStep` | AssemblyRemapper/Remapper/Search/TypeDefExtensions.cs:185-195 | with no parameter count, no sub-check runs, the tracker is untouched and the verdict is `onEmpty`; otherwise the tracker is the sub-check's, and the verdict is the sub-check's verdict (`onEmpty` if it was `Disabled`) |
| `SearchSemantics.RunChecks` | AssemblyRemapper/Remapper/Search/TypeDefExtensions.cs:210-231 | running the enabled method sub-checks yields exactly one verdict per sub-check |
| `SearchSemantics.MethodsStep` | AssemblyRemapper/Remapper/Search/TypeDefExtensions.cs:201-235 | naming methods while ignoring all of them gives `NoMatch` with the tracker untouched; with no method criterion, nothing runs, the tracker is untouched and the verdict is `onEmpty`; the other cases are stated by `MethodsStepRunsSubChecks`, `MethodSubCheckVeto`, `MethodSubChecksEnabled` and `RunChecksAt` |
| `TypeDefExtensions.MatchIsAbstract` | AssemblyRemapper/Remapper/Search/TypeDefExtensions.cs:11-32 | verdict and new tracker state are those of `AbstractStep` on the old state |
| `TypeDefExtensions.MatchFlag` | AssemblyRemapper/Remapper/Search/TypeDefExtensions.cs:36-48 | verdict and new tracker state are those of `FlagStep` on the old state |
| `TypeDefExtensions.MatchIsEnum` | AssemblyRemapper/Remapper/Search/TypeDefExtensions.cs:34-49 | `FlagStep` on `isEnum` with reason `IsEnum` |
| `TypeDefExtensions.MatchIsNested` | AssemblyRemapper/Remapper/Search/TypeDefExtensions.cs:51-66 | `FlagStep` on `isNested` with reason `IsNested` |
| `TypeDefExtensions.MatchIsSealed` | AssemblyRemapper/Remapper/Search/TypeDefExtensions.cs:68-83 | `FlagStep` on `isSealed` with reason `IsSealed` |
| `TypeDefExtensions.MatchIsDerived` | AssemblyRemapper/Remapper/Search/TypeDefExtensions.cs:85-110 | verdict and new tracker state are those of `DerivedStep` on the old state |
| `TypeDefExtensions.MatchIsInterface` | AssemblyRemapper/Remapper/Search/TypeDefExtensions.cs:112-127 | `FlagStep` on `isInterface` with reason `IsInterface` |
| `TypeDefExtensions.MatchHasGenericParameters` | AssemblyRemapper/Remapper/Search/TypeDefExtensions.cs:129-144 | `FlagStep` on `hasGenericParameters` with reason `HasGenericParameters` |
| `TypeDefExtensions.MatchIsPublic` | AssemblyRemapper/Remapper/Search/TypeDefExtensions.cs:146-166 | verdict and new tracker state are those of `PublicStep` on the old state |
| `TypeDefExtensions.MatchHasAttribute` | AssemblyRemapper/Remapper/Search/TypeDefExtensions.cs:168-183 | `FlagStep` on custom-attribute presence with reason `HasAttribute` |
| `TypeDefExtensions.MatchConstructors` | AssemblyRemapper/Remapper/Search/TypeDefExtensions.cs:185-195 | verdict and new tracker state are those of `ConstructorsStep` on the old state |
| `TypeDefExtensions.MatchMethods` | AssemblyRemapper/Remapper/Search/TypeDefExtensions.cs:201-235 | verdict and new tracker state are those of `MethodsStep`: a conflict rejects at once; otherwise the enabled sub-checks run in order, each on the state the previous left, and their verdicts are aggregated |
| `TypeDefExtensions.MatchFields` | AssemblyRemapper/Remapper/Search/TypeDefExtensions.cs:237-275 | both loops (veto scan, whitelist count) together compute `MemberSetStep` for fields |
| `TypeDefExtensions.MatchProperties` | AssemblyRemapper/Remapper/Search/TypeDefExtensions.cs:277-314 | both loops together compute `MemberSetStep` for properties |
| `TypeDefExtensions.MatchNestedTypes` | AssemblyRemapper/Remapper/Search/TypeDefExtensions.cs:316-354 | both loops together compute `MemberSetStep` for nested types |
| `SearchProperties.NestedVisibilityNeverMatches` | AssemblyRemapper/Remapper/Search/TypeDefExtensions.cs:153-165 | a nested visibility satisfies neither visibility request and records `IsPublic` |
| `SearchProperties.IgnoredBaseDoesNotVetoDerived` | AssemblyRemapper/Remapper/Search/TypeDefExtensions.cs:92-96 | a base equal to `ignoreBaseClass` still matches `isDerived == true`, with one point |
| `SearchProperties.NoBaseMatchesUnsetBaseClass` | AssemblyRemapper/Remapper/Search/TypeDefExtensions.cs:98-101 | a type with no base matches either inheritance request, without a point, when `matchBaseClass` is unset |
| `SearchProperties.ExactBaseClassScoresNothing` | AssemblyRemapper/Remapper/Search/TypeDefExtensions.cs:98-101 | with `isDerived == false`, a base equal to `matchBaseClass` confirms a match but adds no point |
| `SearchProperties.MemberSetScoreBounds` | AssemblyRemapper/Remapper/Search/TypeDefExtensions.cs:237-354 | a member-set predicate never lowers the score and raises it by at most the member count (one for the empty-field shortcut) |
| `SearchProperties.MemberSetOrderIndependent` | AssemblyRemapper/Remapper/Search/TypeDefExtensions.cs:255-272 | candidates whose member names agree as multisets get the same verdict and tracker state |
| `SearchProperties.FieldWildcardWithFieldsRecordsNoReason` | AssemblyRemapper/Remapper/Search/TypeDefExtensions.cs:244-274 | with only `"*"` ignored and nothing whitelisted, a candidate that has fields gets `NoMatch` and no failure reason |
| `SearchProperties.NestedWildcardReadsPropertyList` | AssemblyRemapper/Remapper/Search/TypeDefExtensions.cs:323-330 | the nested-type shortcut fires on `"*"` in the property ignore list, not the nested-type one, and records `HasNestedTypes` on its `Match` |
| `SearchProperties.OneWhitelistHitSuffices` | AssemblyRemapper/Remapper/Search/TypeDefExtensions.cs:265-274 | one whitelisted member without a veto gives `Match` and at least one point |
| `SearchProperties.FailureReasonOverwritten` | AssemblyRemapper/Remapper/Search/TypeDefExtensions.cs:260 | a later rejection replaces the reason an earlier one recorded |
| `SearchProperties.MethodSubChecksEnabled` | AssemblyRemapper/Remapper/Search/TypeDefExtensions.cs:210-231 | each method sub-check is enabled exactly by its own condition, and enabled sub-checks always run in the same fixed order |
| `SearchProperties.RunChecksAt` | AssemblyRemapper/Remapper/Search/TypeDefExtensions.cs:210-231 | the `i`-th verdict is the `i`-th sub-check's, run on the tracker state the earlier sub-checks left |
| `SearchProperties.MethodsStepRunsSubChecks` | AssemblyRemapper/Remapper/Search/TypeDefExtensions.cs:210-234 | without a conflict, the method verdict is the aggregate of exactly the enabled sub-checks run in their fixed order, and the tracker is what the last one left |
| `SearchProperties.MethodWildcardRunsBothIgnoreChecks` | AssemblyRemapper/Remapper/Search/TypeDefExtensions.cs:215-225 | ignoring exactly `"*"` runs the without-methods check, then the no-methods check |
| `SearchProperties.MethodSubCheckVeto` | AssemblyRemapper/Remapper/Search/TypeDefExtensions.cs:233-234 | one rejecting method sub-check rejects the candidate |

## Left out

- `AssemblyRemapper/Reflection/Publicizer.cs`: it flips visibility and sealing
  flags on objects of the metadata library, under global settings. It is not
  part of this model.
- `Logger.Log` in `MatchMethods`: diagnostic output only; verdicts do not
  depend on it.
- The bodies of `GetMatch`, of the four `Methods` sub-checks and of
  `Constructors.GetTypeByParameterCount` are not part of this model. The
  sub-checks are arbitrary `SubCheck` parameters. `GetMatch` is pinned down
  only by its documented law, with its verdict on an all-`Disabled` list left
  as `onEmpty`.
- `GetMatch`: its law (any `NoMatch` wins, otherwise any `Match`) is the
  documented aggregation rule of the system's design; the body is not part of
  this model. The comments at lines 200 and 233 of `TypeDefExtensions.cs`
  read as "match if any criterion matched", which would let `[Match, NoMatch]`
  aggregate to `Match`; the model does not follow that reading.
- MemberSetScoreBounds: "never lowers the score" holds only without
  wrap-around. `Tally.score` is an unbounded integer; if `ScoringModel.Score`
  is a 32-bit C# `int`, `Score++` wraps at 2^31-1, which the model does not
  capture.
- How `TypeDefinition` computes its flags (`GetStaticConstructor`, `HasFields`
  and the like) is not modelled. They are plain fields of `TypeDef`, and the
  `Has...` tests are non-emptiness of the name lists.
- The engine that iterates candidates and picks the best score is not part of
  this model, so no tie-breaking is modelled.
- The `SearchParams` and `ScoringModel` source files are not part of this model.
  - `methodCount` is taken to be a nullable integer: the `> 0` test is false when
    it is unset.
  - `ScoringModel`'s constructor is assumed to start at score 0 with no failure
    reason.
