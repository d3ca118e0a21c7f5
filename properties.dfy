/** Properties of the predicates that relate several calls, several inputs or
    the order in which sub-checks run. */
module SearchProperties {
  import opened Wrappers
  import opened Enums
  import opened Candidates
  import opened Params
  import opened Scoring
  import opened Aggregation
  import opened NameLists
  import opened SearchSemantics

  // ---------------------------------------------------------------------------
  // Visibility and inheritance

  /** No nested visibility satisfies the visibility criterion, whichever way it asks. */
  lemma NestedVisibilityNeverMatches(t: TypeDef, p: SearchParams, st: Tally)
    requires t.visibility.IsNestedKind() && p.isPublic.Some?
    ensures PublicStep(t, p, st) == Outcome(NoMatch, st.(failureReason := Some(IsPublic)))
  {
  }

  /** A type that has a base type matches `isDerived == true` with one point
      even when its base is the very class the specification ignores. */
  lemma IgnoredBaseDoesNotVetoDerived(t: TypeDef, p: SearchParams, st: Tally)
    requires p.isDerived == Some(true) && t.baseTypeName.Some?
    requires t.baseTypeName == p.ignoreBaseClass
    ensures DerivedStep(t, p, st) == Outcome(Match, st.(score := st.score + 1))
  {
  }

  /** A type without a base type matches either inheritance request, without a
      point, when no base class name is given. */
  lemma NoBaseMatchesUnsetBaseClass(t: TypeDef, p: SearchParams, st: Tally)
    requires p.isDerived.Some? && t.baseTypeName.None? && p.matchBaseClass.None?
    ensures DerivedStep(t, p, st) == Outcome(Match, st)
  {
  }

  /** Naming the exact base class confirms the candidate but adds no point
      unless the permissive branch already fired. */
  lemma ExactBaseClassScoresNothing(t: TypeDef, p: SearchParams, st: Tally)
    requires p.isDerived == Some(false) && t.baseTypeName.Some? && t.baseTypeName == p.matchBaseClass
    ensures DerivedStep(t, p, st) == Outcome(Match, st)
  {
  }

  // ---------------------------------------------------------------------------
  // Member sets

  /** The score of a member-set predicate never drops, and grows by at most the
      number of candidate members (one for the empty-field shortcut). */
  lemma MemberSetScoreBounds(kind: MemberKind, t: TypeDef, p: SearchParams, st: Tally)
    ensures var o := MemberSetStep(kind, t, p, st);
            st.score <= o.tally.score <= st.score + (if Members(t, kind) == [] then 1 else |Members(t, kind)|)
  {
  }

  /** A member-set verdict and the tracker it leaves depend on the candidate's
      member names as a multiset, not on their declaration order. */
  lemma MemberSetOrderIndependent(kind: MemberKind, t: TypeDef, u: TypeDef, p: SearchParams, st: Tally)
    requires multiset(Members(t, kind)) == multiset(Members(u, kind))
    ensures MemberSetStep(kind, t, p, st) == MemberSetStep(kind, u, p, st)
  {
    var a, b := Members(t, kind), Members(u, kind);
    assert a == [] <==> b == [] by {
      assert |a| == |multiset(a)| && |b| == |multiset(b)|;
    }
    AnyInPermutation(a, b, IgnoreList(p, kind));
    HitsPermutation(a, b, MatchList(p, kind));
  }

  /** The wildcard alone vetoes nothing: a candidate that has fields, none of
      them named "*", is rejected by an ignore list of just "*" only for want
      of a whitelist hit, and no failure reason is recorded. */
  lemma FieldWildcardWithFieldsRecordsNoReason(t: TypeDef, p: SearchParams, st: Tally)
    requires p.ignoreFields == [Wildcard] && p.matchFields == []
    requires t.fields != [] && Wildcard !in t.fields
    ensures MemberSetStep(Fields, t, p, st) == Outcome(NoMatch, st)
  {
  }

  /** The nested-type wildcard is read from the property ignore list: with "*"
      only among the ignored nested types, a type without nested types and
      with no whitelist hit is rejected; with "*" among the ignored properties
      it is accepted, and HasNestedTypes is recorded as the failure reason. */
  lemma NestedWildcardReadsPropertyList(t: TypeDef, p: SearchParams, st: Tally)
    requires t.nestedTypes == []
    ensures Wildcard !in p.ignoreProperties && Wildcard in p.ignoreNestedTypes ==>
              MemberSetStep(NestedTypes, t, p, st) == Outcome(NoMatch, st)
    ensures Wildcard in p.ignoreProperties && (p.matchNestedTypes != [] || p.ignoreNestedTypes != []) ==>
              MemberSetStep(NestedTypes, t, p, st) == Outcome(Match, st.(failureReason := Some(HasNestedTypes)))
  {
  }

  /** A single whitelisted member is enough: matching asks for existence, not coverage. */
  lemma OneWhitelistHitSuffices(kind: MemberKind, t: TypeDef, p: SearchParams, st: Tally, i: nat)
    requires i < |Members(t, kind)| && Members(t, kind)[i] in MatchList(p, kind)
    requires !AnyIn(Members(t, kind), IgnoreList(p, kind))
    ensures MemberSetStep(kind, t, p, st).verdict == Match
    ensures MemberSetStep(kind, t, p, st).tally.score >= st.score + 1
  {
  }

  /** The failure reason is overwritten, not kept from the first rejection. */
  lemma FailureReasonOverwritten(t: TypeDef, p: SearchParams, st: Tally)
    requires p.isSealed.Some? && t.isSealed != p.isSealed.value
    requires AnyIn(t.fields, p.ignoreFields)
    ensures var first := FlagStep(p.isSealed, t.isSealed, FailureReason.IsSealed, st);
            first.tally.failureReason == Some(FailureReason.IsSealed) &&
            MemberSetStep(Fields, t, p, first.tally).tally.failureReason == Some(HasFields)
  {
  }

  // ---------------------------------------------------------------------------
  // Aggregating dispatchers

  /** The enabled method sub-checks: which ones, and always in the same order. */
  lemma MethodSubChecksEnabled(p: SearchParams)
    ensures var cs := MethodSubChecks(p);
            (WithMethods in cs <==> |p.matchMethods| > 0) &&
            (WithoutMethods in cs <==> |p.ignoreMethods| > 0) &&
            (WithNoMethods in cs <==> Wildcard in p.ignoreMethods) &&
            (ByNumberOfMethods in cs <==> MethodCountGiven(p)) &&
            (forall i, j | 0 <= i < j < |cs| :: Rank(cs[i]) < Rank(cs[j]))
  {
  }

  /** Entry `i` of a trace is the verdict of the `i`-th sub-check, run on the
      tracker state the sub-checks before it left. */
  lemma {:induction false} RunChecksAt(cs: seq<MethodCheck>, checks: MethodChecks, t: TypeDef,
                                       p: SearchParams, st: Tally, i: nat)
    requires i < |cs|
    ensures RunChecks(cs, checks, t, p, st).verdicts[i] ==
            Run(cs[i], checks)(t, p, RunChecks(cs[..i], checks, t, p, st).tally).verdict
    decreases |cs|
  {
    var n := |cs| - 1;
    if i < n {
      RunChecksAt(cs[..n], checks, t, p, st, i);
      assert cs[..n][..i] == cs[..i];
    } else {
      assert cs[..i] == cs[..n];
    }
  }

  lemma RunChecksSnocIf(cs: seq<MethodCheck>, enabled: bool, c: MethodCheck, checks: MethodChecks,
                        t: TypeDef, p: SearchParams, st: Tally)
    ensures RunChecks(cs + (if enabled then [c] else []), checks, t, p, st) ==
            if enabled then Then(RunChecks(cs, checks, t, p, st), c, checks, t, p)
            else RunChecks(cs, checks, t, p, st)
  {
    if enabled {
      assert (cs + [c])[..|cs|] == cs;
    } else {
      assert cs + [] == cs;
    }
  }

  /** The dispatcher runs exactly the enabled sub-checks, in their fixed order,
      each on the tracker state the previous ones left. */
  lemma MethodsStepRunsSubChecks(t: TypeDef, p: SearchParams, checks: MethodChecks,
                                 onEmpty: MatchResult, st: Tally)
    requires !MethodConflict(p)
    ensures var tr := RunChecks(MethodSubChecks(p), checks, t, p, st);
            MethodsStep(t, p, checks, onEmpty, st) == Outcome(GetMatch(tr.verdicts, onEmpty), tr.tally)
  {
    var a := if |p.matchMethods| > 0 then [WithMethods] else [];
    var b := if |p.ignoreMethods| > 0 then [WithoutMethods] else [];
    var c := if Wildcard in p.ignoreMethods then [WithNoMethods] else [];
    var d := if MethodCountGiven(p) then [ByNumberOfMethods] else [];
    assert a == [] + a;
    RunChecksSnocIf([], |p.matchMethods| > 0, WithMethods, checks, t, p, st);
    RunChecksSnocIf(a, |p.ignoreMethods| > 0, WithoutMethods, checks, t, p, st);
    RunChecksSnocIf(a + b, Wildcard in p.ignoreMethods, WithNoMethods, checks, t, p, st);
    RunChecksSnocIf(a + b + c, MethodCountGiven(p), ByNumberOfMethods, checks, t, p, st);
    assert MethodSubChecks(p) == a + b + c + d;
  }

  /** Ignoring all methods (and nothing else) runs the without-methods check
      and then the no-methods check. */
  lemma MethodWildcardRunsBothIgnoreChecks(p: SearchParams)
    requires p.matchMethods == [] && p.ignoreMethods == [Wildcard] && !MethodCountGiven(p)
    ensures MethodSubChecks(p) == [WithoutMethods, WithNoMethods]
  {
  }

  /** One rejecting method sub-check rejects the candidate. */
  lemma MethodSubCheckVeto(t: TypeDef, p: SearchParams, checks: MethodChecks, onEmpty: MatchResult,
                           st: Tally, i: nat)
    requires !MethodConflict(p)
    requires i < |MethodSubChecks(p)|
    requires RunChecks(MethodSubChecks(p), checks, t, p, st).verdicts[i] == NoMatch
    ensures MethodsStep(t, p, checks, onEmpty, st).verdict == NoMatch
  {
    MethodsStepRunsSubChecks(t, p, checks, onEmpty, st);
    assert NoMatch in RunChecks(MethodSubChecks(p), checks, t, p, st).verdicts;
  }
}
