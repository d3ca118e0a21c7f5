/** What each predicate of TypeDefExtensions does to one candidate, as a function
    from the tracker state before the call to the verdict and the state after it.
    The methods in module TypeDefExtensions are proved equal to these functions;
    the properties of the predicates are stated here. */
module SearchSemantics {
  import opened Wrappers
  import opened Enums
  import opened Candidates
  import opened Params
  import opened Scoring
  import opened Aggregation
  import opened NameLists

  // ---------------------------------------------------------------------------
  // Criteria checked by routines outside this model

  /** A method or constructor sub-check (Methods.GetTypeWithMethods and its
      siblings, Constructors.GetTypeByParameterCount). Their bodies are not part
      of this model: each is any function of the candidate, the specification
      and the tracker state, returning a verdict and the new tracker state. */
  type SubCheck = (TypeDef, SearchParams, Tally) -> Outcome

  datatype MethodChecks = MethodChecks(
    withMethods: SubCheck,
    withoutMethods: SubCheck,
    withNoMethods: SubCheck,
    byNumberOfMethods: SubCheck)

  // ---------------------------------------------------------------------------
  // Flag predicates

  /** One boolean criterion: disabled when unset; otherwise a match adds one
      to the score and a mismatch overwrites the failure reason. */
  function FlagStep(requested: Option<bool>, actual: bool, reason: FailureReason, st: Tally): (o: Outcome)
    ensures o.verdict == Disabled <==> requested.None?
    ensures o.verdict == Match <==> requested == Some(actual)
    ensures o.verdict == Disabled ==> o.tally == st
    ensures o.verdict == Match ==> o.tally == st.(score := st.score + 1)
    ensures o.verdict == NoMatch ==> o.tally == st.(failureReason := Some(reason))
  {
    match requested
    case None => Outcome(Disabled, st)
    case Some(wanted) =>
      if actual == wanted then Outcome(Match, st.(score := st.score + 1))
      else Outcome(NoMatch, st.(failureReason := Some(reason)))
  }

  /** The abstractness criterion: interfaces and types with a static constructor
      are rejected before abstractness is compared, and silently. */
  function AbstractStep(t: TypeDef, p: SearchParams, st: Tally): (o: Outcome)
    ensures p.isAbstract.None? ==> o == Outcome(Disabled, st)
    ensures p.isAbstract.Some? && (t.isInterface || t.hasStaticConstructor) ==> o == Outcome(NoMatch, st)
    ensures !t.isInterface && !t.hasStaticConstructor ==> o == FlagStep(p.isAbstract, t.isAbstract, IsAbstract, st)
  {
    if p.isAbstract.None? then Outcome(Disabled, st)
    else if t.isInterface || t.hasStaticConstructor then Outcome(NoMatch, st)
    else FlagStep(p.isAbstract, t.isAbstract, IsAbstract, st)
  }

  /** The visibility criterion: `false` asks for exactly not-public, `true` for
      exactly public; nested visibilities satisfy neither. */
  function PublicStep(t: TypeDef, p: SearchParams, st: Tally): (o: Outcome)
    ensures o.verdict == Disabled <==> p.isPublic.None?
    ensures o.verdict == Match <==>
              (p.isPublic == Some(false) && t.visibility == NotPublic) ||
              (p.isPublic == Some(true) && t.visibility == Public)
    ensures o.verdict == Disabled ==> o.tally == st
    ensures o.verdict == Match ==> o.tally == st.(score := st.score + 1)
    ensures o.verdict == NoMatch ==> o.tally == st.(failureReason := Some(IsPublic))
  {
    if p.isPublic.None? then Outcome(Disabled, st)
    else if p.isPublic == Some(false) && t.IsNotPublic() then Outcome(Match, st.(score := st.score + 1))
    else if p.isPublic == Some(true) && t.IsPublic() then Outcome(Match, st.(score := st.score + 1))
    else Outcome(NoMatch, st.(failureReason := Some(IsPublic)))
  }

  /** The inheritance criterion. Base names compare as nullable strings: a type
      without a base type "equals" an unset class name. */
  function DerivedStep(t: TypeDef, p: SearchParams, st: Tally): (o: Outcome)
    ensures o.verdict == Disabled <==> p.isDerived.None?
    ensures o.verdict == Disabled ==> o.tally == st
    ensures o.verdict == Match <==>
              p.isDerived.Some? &&
              ((p.isDerived.value && t.baseTypeName.Some?) || t.baseTypeName == p.matchBaseClass)
    ensures o.tally.score == st.score + (if p.isDerived == Some(true) && t.baseTypeName.Some? then 1 else 0)
    ensures o.tally.failureReason ==
              if o.verdict == NoMatch && t.baseTypeName != p.ignoreBaseClass then Some(IsDerived)
              else st.failureReason
  {
    if p.isDerived.None? then Outcome(Disabled, st)
    else if t.baseTypeName.Some? && p.isDerived.value then Outcome(Match, st.(score := st.score + 1))
    else if t.baseTypeName == p.matchBaseClass then Outcome(Match, st)
    else if t.baseTypeName == p.ignoreBaseClass then Outcome(NoMatch, st)
    else Outcome(NoMatch, st.(failureReason := Some(IsDerived)))
  }

  // ---------------------------------------------------------------------------
  // Member-set predicates (fields, properties, nested types)

  datatype MemberKind = Fields | Properties | NestedTypes

  function Members(t: TypeDef, kind: MemberKind): (names: seq<string>)
  {
    match kind
    case Fields => t.fields
    case Properties => t.properties
    case NestedTypes => t.nestedTypes
  }

  function MatchList(p: SearchParams, kind: MemberKind): (list: seq<string>)
  {
    match kind
    case Fields => p.matchFields
    case Properties => p.matchProperties
    case NestedTypes => p.matchNestedTypes
  }

  function IgnoreList(p: SearchParams, kind: MemberKind): (list: seq<string>)
  {
    match kind
    case Fields => p.ignoreFields
    case Properties => p.ignoreProperties
    case NestedTypes => p.ignoreNestedTypes
  }

  /** The list searched for the wildcard: for nested types it is the property
      ignore list, not the nested-type one. */
  function WildcardList(p: SearchParams, kind: MemberKind): (list: seq<string>)
  {
    match kind
    case Fields => p.ignoreFields
    case Properties => p.ignoreProperties
    case NestedTypes => p.ignoreProperties
  }

  /** Tracker state after the wildcard-empty shortcut: fields score one,
      properties change nothing, nested types record HasNestedTypes. */
  function ShortcutTally(kind: MemberKind, st: Tally): (after: Tally)
  {
    match kind
    case Fields => st.(score := st.score + 1)
    case Properties => st
    case NestedTypes => st.(failureReason := Some(HasNestedTypes))
  }

  function VetoReason(kind: MemberKind): (reason: FailureReason)
  {
    match kind
    case Fields => HasFields
    case Properties => HasProperties
    case NestedTypes => HasNestedTypes
  }

  /** The wildcard-empty shortcut applies. */
  predicate Shortcut(kind: MemberKind, t: TypeDef, p: SearchParams)
  {
    Members(t, kind) == [] && Wildcard in WildcardList(p, kind)
  }

  function MemberSetStep(kind: MemberKind, t: TypeDef, p: SearchParams, st: Tally): (o: Outcome)
    // disabled exactly when neither list is given, and then nothing changes
    ensures o.verdict == Disabled <==> MatchList(p, kind) == [] && IgnoreList(p, kind) == []
    ensures o.verdict == Disabled ==> o.tally == st
    // a member named in the ignore list is a veto, whatever else matches
    ensures AnyIn(Members(t, kind), IgnoreList(p, kind)) ==>
              o == Outcome(NoMatch, st.(failureReason := Some(VetoReason(kind))))
    ensures o.verdict != Disabled && Shortcut(kind, t, p) ==> o == Outcome(Match, ShortcutTally(kind, st))
    // otherwise each whitelisted member scores one, and one hit is enough
    ensures o.verdict != Disabled && !Shortcut(kind, t, p) && !AnyIn(Members(t, kind), IgnoreList(p, kind)) ==>
              o.tally == st.(score := st.score + Hits(Members(t, kind), MatchList(p, kind))) &&
              (o.verdict == Match <==> AnyIn(Members(t, kind), MatchList(p, kind)))
  {
    var members := Members(t, kind);
    if MatchList(p, kind) == [] && IgnoreList(p, kind) == [] then Outcome(Disabled, st)
    else if Shortcut(kind, t, p) then Outcome(Match, ShortcutTally(kind, st))
    else if AnyIn(members, IgnoreList(p, kind)) then
      Outcome(NoMatch, st.(failureReason := Some(VetoReason(kind))))
    else
      var n := Hits(members, MatchList(p, kind));
      Outcome(if n > 0 then Match else NoMatch, st.(score := st.score + n))
  }

  // ---------------------------------------------------------------------------
  // Aggregating dispatchers

  /** The constructor criterion: one sub-check when a parameter count is given,
      none otherwise; the verdict is the aggregate of what was run. */
  function ConstructorsStep(t: TypeDef, p: SearchParams, byParameterCount: SubCheck,
                            onEmpty: MatchResult, st: Tally): (o: Outcome)
    ensures p.constructorParameterCount.None? ==> o == Outcome(onEmpty, st)
    ensures p.constructorParameterCount.Some? ==>
              var sub := byParameterCount(t, p, st);
              o.tally == sub.tally &&
              o.verdict == (if sub.verdict == Disabled then onEmpty else sub.verdict)
  {
    if p.constructorParameterCount.None? then Outcome(GetMatch([], onEmpty), st)
    else
      var sub := byParameterCount(t, p, st);
      Outcome(GetMatch([sub.verdict], onEmpty), sub.tally)
  }

  datatype MethodCheck = WithMethods | WithoutMethods | WithNoMethods | ByNumberOfMethods

  /** Position of each method sub-check in the fixed order the dispatcher uses. */
  function Rank(c: MethodCheck): (rank: nat)
  {
    match c
    case WithMethods => 0
    case WithoutMethods => 1
    case WithNoMethods => 2
    case ByNumberOfMethods => 3
  }

  function Run(c: MethodCheck, checks: MethodChecks): (check: SubCheck)
  {
    match c
    case WithMethods => checks.withMethods
    case WithoutMethods => checks.withoutMethods
    case WithNoMethods => checks.withNoMethods
    case ByNumberOfMethods => checks.byNumberOfMethods
  }

  /** `methodCount > 0` on a nullable count: false when unset. */
  predicate MethodCountGiven(p: SearchParams)
  {
    p.methodCount.Some? && p.methodCount.value > 0
  }

  /** Asking for named methods while ignoring all of them. */
  predicate MethodConflict(p: SearchParams)
  {
    |p.matchMethods| > 0 && Wildcard in p.ignoreMethods
  }

  /** The method sub-checks a specification enables, in the order they run. */
  function MethodSubChecks(p: SearchParams): (cs: seq<MethodCheck>)
  {
    (if |p.matchMethods| > 0 then [WithMethods] else []) +
    (if |p.ignoreMethods| > 0 then [WithoutMethods] else []) +
    (if Wildcard in p.ignoreMethods then [WithNoMethods] else []) +
    (if MethodCountGiven(p) then [ByNumberOfMethods] else [])
  }

  /** The verdicts the sub-checks produce and the tracker state they leave. */
  datatype Trace = Trace(verdicts: seq<MatchResult>, tally: Tally)

  /** Runs the sub-check `c` on the state `tr` leaves and records its verdict. */
  function Then(tr: Trace, c: MethodCheck, checks: MethodChecks, t: TypeDef, p: SearchParams): (next: Trace)
  {
    var o := Run(c, checks)(t, p, tr.tally);
    Trace(tr.verdicts + [o.verdict], o.tally)
  }

  /** Runs the sub-checks `cs` one after the other, each seeing the tracker
      state the previous ones left. */
  function RunChecks(cs: seq<MethodCheck>, checks: MethodChecks, t: TypeDef, p: SearchParams, st: Tally): (tr: Trace)
    ensures |tr.verdicts| == |cs|
  {
    if cs == [] then Trace([], st)
    else Then(RunChecks(cs[..|cs| - 1], checks, t, p, st), cs[|cs| - 1], checks, t, p)
  }

  /** The method criterion: a conflicting specification is rejected before any
      sub-check runs; otherwise each enabled sub-check runs in turn and their
      verdicts are aggregated. */
  function MethodsStep(t: TypeDef, p: SearchParams, checks: MethodChecks,
                       onEmpty: MatchResult, st: Tally): (o: Outcome)
    // naming methods while ignoring all of them: rejected, tracker untouched
    ensures MethodConflict(p) ==> o == Outcome(NoMatch, st)
    // no method criterion at all: nothing runs and the empty aggregate is returned
    ensures p.matchMethods == [] && p.ignoreMethods == [] && !MethodCountGiven(p) ==> o == Outcome(onEmpty, st)
  {
    if MethodConflict(p) then Outcome(NoMatch, st)
    else
      var tr0 := Trace([], st);
      var tr1 := if |p.matchMethods| > 0 then Then(tr0, WithMethods, checks, t, p) else tr0;
      var tr2 := if |p.ignoreMethods| > 0 then Then(tr1, WithoutMethods, checks, t, p) else tr1;
      var tr3 := if Wildcard in p.ignoreMethods then Then(tr2, WithNoMethods, checks, t, p) else tr2;
      var tr4 := if MethodCountGiven(p) then Then(tr3, ByNumberOfMethods, checks, t, p) else tr3;
      Outcome(GetMatch(tr4.verdicts, onEmpty), tr4.tally)
  }
}
