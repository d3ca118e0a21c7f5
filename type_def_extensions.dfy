/** The predicates of TypeDefExtensions: each checks one criterion of a search
    specification against one candidate type, updates the candidate's tracker
    in place and returns a verdict. Each is proved to compute the step function
    of module SearchSemantics on the tracker state it finds. */
module TypeDefExtensions {
  import opened Wrappers
  import opened Enums
  import opened Candidates
  import opened Params
  import opened Scoring
  import opened Aggregation
  import opened NameLists
  import opened SearchSemantics

  method MatchIsAbstract(t: TypeDef, p: SearchParams, score: ScoringModel) returns (r: MatchResult)
    modifies score`score, score`failureReason
    ensures Outcome(r, score.State()) == AbstractStep(t, p, old(score.State()))
  {
    if p.isAbstract.None? {
      return Disabled;
    }
    // interfaces cannot be abstract, and a type with a type initializer is not checked
    if t.isInterface || t.hasStaticConstructor {
      return NoMatch;
    }
    if t.isAbstract == p.isAbstract.value {
      score.score := score.score + 1;
      return Match;
    }
    score.failureReason := Some(FailureReason.IsAbstract);
    return NoMatch;
  }

  /** The shared body of the six plain flag predicates. */
  method MatchFlag(requested: Option<bool>, actual: bool, reason: FailureReason, score: ScoringModel)
    returns (r: MatchResult)
    modifies score`score, score`failureReason
    ensures Outcome(r, score.State()) == FlagStep(requested, actual, reason, old(score.State()))
  {
    if requested.None? {
      return Disabled;
    }
    if actual == requested.value {
      score.score := score.score + 1;
      return Match;
    }
    score.failureReason := Some(reason);
    return NoMatch;
  }

  method MatchIsEnum(t: TypeDef, p: SearchParams, score: ScoringModel) returns (r: MatchResult)
    modifies score`score, score`failureReason
    ensures Outcome(r, score.State()) == FlagStep(p.isEnum, t.isEnum, FailureReason.IsEnum, old(score.State()))
  {
    r := MatchFlag(p.isEnum, t.isEnum, FailureReason.IsEnum, score);
  }

  method MatchIsNested(t: TypeDef, p: SearchParams, score: ScoringModel) returns (r: MatchResult)
    modifies score`score, score`failureReason
    ensures Outcome(r, score.State()) == FlagStep(p.isNested, t.isNested, FailureReason.IsNested, old(score.State()))
  {
    r := MatchFlag(p.isNested, t.isNested, FailureReason.IsNested, score);
  }

  method MatchIsSealed(t: TypeDef, p: SearchParams, score: ScoringModel) returns (r: MatchResult)
    modifies score`score, score`failureReason
    ensures Outcome(r, score.State()) == FlagStep(p.isSealed, t.isSealed, FailureReason.IsSealed, old(score.State()))
  {
    r := MatchFlag(p.isSealed, t.isSealed, FailureReason.IsSealed, score);
  }

  method MatchIsDerived(t: TypeDef, p: SearchParams, score: ScoringModel) returns (r: MatchResult)
    modifies score`score, score`failureReason
    ensures Outcome(r, score.State()) == DerivedStep(t, p, old(score.State()))
  {
    if p.isDerived.None? {
      return Disabled;
    }
    if t.baseTypeName.Some? && p.isDerived.value {
      score.score := score.score + 1;
      return Match;
    }
    if t.baseTypeName == p.matchBaseClass {
      return Match;
    }
    if t.baseTypeName == p.ignoreBaseClass {
      return NoMatch;
    }
    score.failureReason := Some(FailureReason.IsDerived);
    return NoMatch;
  }

  method MatchIsInterface(t: TypeDef, p: SearchParams, score: ScoringModel) returns (r: MatchResult)
    modifies score`score, score`failureReason
    ensures Outcome(r, score.State()) == FlagStep(p.isInterface, t.isInterface, FailureReason.IsInterface, old(score.State()))
  {
    r := MatchFlag(p.isInterface, t.isInterface, FailureReason.IsInterface, score);
  }

  method MatchHasGenericParameters(t: TypeDef, p: SearchParams, score: ScoringModel) returns (r: MatchResult)
    modifies score`score, score`failureReason
    ensures Outcome(r, score.State()) ==
              FlagStep(p.hasGenericParameters, t.hasGenericParameters, FailureReason.HasGenericParameters, old(score.State()))
  {
    r := MatchFlag(p.hasGenericParameters, t.hasGenericParameters, FailureReason.HasGenericParameters, score);
  }

  method MatchIsPublic(t: TypeDef, p: SearchParams, score: ScoringModel) returns (r: MatchResult)
    modifies score`score, score`failureReason
    ensures Outcome(r, score.State()) == PublicStep(t, p, old(score.State()))
  {
    if p.isPublic.None? {
      return Disabled;
    }
    if p.isPublic == Some(false) && t.IsNotPublic() {
      score.score := score.score + 1;
      return Match;
    } else if p.isPublic == Some(true) && t.IsPublic() {
      score.score := score.score + 1;
      return Match;
    }
    score.failureReason := Some(FailureReason.IsPublic);
    return NoMatch;
  }

  method MatchHasAttribute(t: TypeDef, p: SearchParams, score: ScoringModel) returns (r: MatchResult)
    modifies score`score, score`failureReason
    ensures Outcome(r, score.State()) ==
              FlagStep(p.hasAttribute, t.hasCustomAttributes, FailureReason.HasAttribute, old(score.State()))
  {
    r := MatchFlag(p.hasAttribute, t.hasCustomAttributes, FailureReason.HasAttribute, score);
  }

  /** Calls one sub-check defined outside this model and stores the tracker
      state it returns. */
  method RunSubCheck(check: SubCheck, t: TypeDef, p: SearchParams, score: ScoringModel) returns (v: MatchResult)
    modifies score`score, score`failureReason
    ensures Outcome(v, score.State()) == check(t, p, old(score.State()))
  {
    var o := check(t, p, score.State());
    score.score, score.failureReason := o.tally.score, o.tally.failureReason;
    v := o.verdict;
  }

  method MatchConstructors(t: TypeDef, p: SearchParams, score: ScoringModel,
                           byParameterCount: SubCheck, onEmpty: MatchResult) returns (r: MatchResult)
    modifies score`score, score`failureReason
    ensures Outcome(r, score.State()) == ConstructorsStep(t, p, byParameterCount, onEmpty, old(score.State()))
  {
    var matches: seq<MatchResult> := [];
    if p.constructorParameterCount.Some? {
      var v := RunSubCheck(byParameterCount, t, p, score);
      matches := matches + [v];
    }
    r := GetMatch(matches, onEmpty);
  }

  /** Runs the sub-check `c` and records its verdict in `matches`. */
  method RunMethodCheck(c: MethodCheck, checks: MethodChecks, t: TypeDef, p: SearchParams,
                        score: ScoringModel, matches: seq<MatchResult>, ghost tr: Trace)
    returns (matches': seq<MatchResult>)
    requires tr == Trace(matches, score.State())
    modifies score`score, score`failureReason
    ensures Trace(matches', score.State()) == Then(tr, c, checks, t, p)
  {
    var v := RunSubCheck(Run(c, checks), t, p, score);
    matches' := matches + [v];
  }

  method MatchMethods(t: TypeDef, p: SearchParams, score: ScoringModel,
                      checks: MethodChecks, onEmpty: MatchResult) returns (r: MatchResult)
    modifies score`score, score`failureReason
    ensures Outcome(r, score.State()) == MethodsStep(t, p, checks, onEmpty, old(score.State()))
  {
    var matches: seq<MatchResult> := [];
    ghost var tr := Trace(matches, score.State());

    if |p.matchMethods| > 0 && Wildcard in p.ignoreMethods {
      // a configuration conflict, reported on the diagnostic log
      return NoMatch;
    } else if |p.matchMethods| > 0 {
      matches := RunMethodCheck(WithMethods, checks, t, p, score, matches, tr);
      tr := Then(tr, WithMethods, checks, t, p);
    }
    if |p.ignoreMethods| > 0 {
      matches := RunMethodCheck(WithoutMethods, checks, t, p, score, matches, tr);
      tr := Then(tr, WithoutMethods, checks, t, p);
    }
    if Wildcard in p.ignoreMethods {
      matches := RunMethodCheck(WithNoMethods, checks, t, p, score, matches, tr);
      tr := Then(tr, WithNoMethods, checks, t, p);
    }
    if p.methodCount.Some? && p.methodCount.value > 0 {
      matches := RunMethodCheck(ByNumberOfMethods, checks, t, p, score, matches, tr);
      tr := Then(tr, ByNumberOfMethods, checks, t, p);
    }
    r := GetMatch(matches, onEmpty);
  }

  method MatchFields(t: TypeDef, p: SearchParams, score: ScoringModel) returns (r: MatchResult)
    modifies score`score, score`failureReason
    ensures Outcome(r, score.State()) == MemberSetStep(Fields, t, p, old(score.State()))
  {
    if |p.matchFields| == 0 && |p.ignoreFields| == 0 {
      return Disabled;
    }
    var skipAll := Wildcard in p.ignoreFields;
    if !t.HasFields() && skipAll {
      score.score := score.score + 1;
      return Match;
    }
    var matchCount := 0;
    for i := 0 to |t.fields|
      invariant forall j | 0 <= j < i :: t.fields[j] !in p.ignoreFields
      invariant score.State() == old(score.State())
    {
      if t.fields[i] in p.ignoreFields {
        score.failureReason := Some(HasFields);
        assert AnyIn(t.fields, p.ignoreFields);
        return NoMatch;
      }
    }
    assert !AnyIn(t.fields, p.ignoreFields);
    for i := 0 to |t.fields|
      invariant matchCount == Hits(t.fields[..i], p.matchFields)
      invariant score.State() == old(score.State()).(score := old(score.score) + matchCount)
    {
      assert t.fields[..i + 1][..i] == t.fields[..i];
      if t.fields[i] in p.matchFields {
        matchCount := matchCount + 1;
        score.score := score.score + 1;
      }
    }
    assert t.fields[..|t.fields|] == t.fields;
    r := if matchCount > 0 then Match else NoMatch;
  }

  method MatchProperties(t: TypeDef, p: SearchParams, score: ScoringModel) returns (r: MatchResult)
    modifies score`score, score`failureReason
    ensures Outcome(r, score.State()) == MemberSetStep(Properties, t, p, old(score.State()))
  {
    if |p.matchProperties| == 0 && |p.ignoreProperties| == 0 {
      return Disabled;
    }
    var skipAll := Wildcard in p.ignoreProperties;
    if !t.HasProperties() && skipAll {
      return Match;
    }
    for i := 0 to |t.properties|
      invariant forall j | 0 <= j < i :: t.properties[j] !in p.ignoreProperties
      invariant score.State() == old(score.State())
    {
      if t.properties[i] in p.ignoreProperties {
        score.failureReason := Some(HasProperties);
        assert AnyIn(t.properties, p.ignoreProperties);
        return NoMatch;
      }
    }
    assert !AnyIn(t.properties, p.ignoreProperties);
    var matchCount := 0;
    for i := 0 to |t.properties|
      invariant matchCount == Hits(t.properties[..i], p.matchProperties)
      invariant score.State() == old(score.State()).(score := old(score.score) + matchCount)
    {
      assert t.properties[..i + 1][..i] == t.properties[..i];
      if t.properties[i] in p.matchProperties {
        matchCount := matchCount + 1;
        score.score := score.score + 1;
      }
    }
    assert t.properties[..|t.properties|] == t.properties;
    r := if matchCount > 0 then Match else NoMatch;
  }

  method MatchNestedTypes(t: TypeDef, p: SearchParams, score: ScoringModel) returns (r: MatchResult)
    modifies score`score, score`failureReason
    ensures Outcome(r, score.State()) == MemberSetStep(NestedTypes, t, p, old(score.State()))
  {
    if |p.matchNestedTypes| == 0 && |p.ignoreNestedTypes| == 0 {
      return Disabled;
    }
    // the wildcard is looked up in the property ignore list
    var skipAll := Wildcard in p.ignoreProperties;
    if !t.HasNestedTypes() && skipAll {
      score.failureReason := Some(HasNestedTypes);
      return Match;
    }
    for i := 0 to |t.nestedTypes|
      invariant forall j | 0 <= j < i :: t.nestedTypes[j] !in p.ignoreNestedTypes
      invariant score.State() == old(score.State())
    {
      if t.nestedTypes[i] in p.ignoreNestedTypes {
        score.failureReason := Some(HasNestedTypes);
        assert AnyIn(t.nestedTypes, p.ignoreNestedTypes);
        return NoMatch;
      }
    }
    assert !AnyIn(t.nestedTypes, p.ignoreNestedTypes);
    var matchCount := 0;
    for i := 0 to |t.nestedTypes|
      invariant matchCount == Hits(t.nestedTypes[..i], p.matchNestedTypes)
      invariant score.State() == old(score.State()).(score := old(score.score) + matchCount)
    {
      assert t.nestedTypes[..i + 1][..i] == t.nestedTypes[..i];
      if t.nestedTypes[i] in p.matchNestedTypes {
        matchCount := matchCount + 1;
        score.score := score.score + 1;
      }
    }
    assert t.nestedTypes[..|t.nestedTypes|] == t.nestedTypes;
    r := if matchCount > 0 then Match else NoMatch;
  }
}
