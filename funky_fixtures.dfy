/**
 * `ClassWithFunkyMethodNames`: a class whose method names end in `?`, `!`
 * and `=`, and which redefines the operators `==` and `=~`.
 */
module FunkyFixtures {
  import opened Wrappers
  import opened JoinPoints
  import opened MethodFinder
  import opened Specifications
  import opened CandidateResolver
  import opened Pointcuts

  const FUNKY := "ClassWithFunkyMethodNames"

  /**
   * The method finder drops, under `:suppress_ancestor_methods`, every method
   * an ancestor also defines, so the redefined `==` and `=~` are recorded as
   * inherited from `Object` although the class defines them too.
   */
  const FUNKY_MEMBERS: set<Member> := {
    Member("huh?", Public, InstanceScope, Own),
    Member("yes!", Public, InstanceScope, Own),
    Member("x=", Public, InstanceScope, Own),
    Member("==", Public, InstanceScope, Ancestor("Object")),
    Member("=~", Public, InstanceScope, Ancestor("Object"))}

  /** The patterns `/c$/` for a single character `c`: the subject ends with `c`. */
  predicate SuffixRegex(src: string, subject: string) {
    |src| == 2 && src[1] == '$' && |subject| > 0 && subject[|subject| - 1] == src[0]
  }

  const FUNKY_UNIVERSE: Universe := Universe({FUNKY}, map[OfType(FUNKY) := FUNKY_MEMBERS], SuffixRegex)

  /** `:types => ClassWithFunkyMethodNames, :methods => /=$/, :method_options => [:suppress_ancestor_methods]` */
  const EQUALS_SUFFIX: Config :=
    NO_OPTIONS.(types := Some([TypeRef(FUNKY)]), methods := Some([Matching(Regex("=$"))]),
                methodOptions := [SuppressAncestorMethods])

  /** `:types => ClassWithFunkyMethodNames, :method => :==, :method_options => [:instance]` */
  const EQUALS_OPERATOR: Config :=
    NO_OPTIONS.(types := Some([TypeRef(FUNKY)]), singularMethod := Some([Named("==")]),
                methodOptions := [InstanceMethods])

  /** Proof helper: the one type as a target. */
  lemma FunkyTargets(s: Specification)
    requires s.types == {TypeRef(FUNKY)} && s.objects == {}
    ensures Targets(ResolveTypes(FUNKY_UNIVERSE, s.types), ResolveObjects(s.objects)) == {OfType(FUNKY)}
  {
    KnownTypesResolve(FUNKY_UNIVERSE, {FUNKY});
    assert AsRefs({FUNKY}) == {TypeRef(FUNKY)};
  }

  lemma OwnFunkyMethods()
    ensures FindMethods(FUNKY_UNIVERSE, OfType(FUNKY), Search({Public}, InstanceScope, true)) == {"huh?", "yes!", "x="}
  {
    var search := Search({Public}, InstanceScope, true);
    assert Entries(FUNKY_UNIVERSE, OfType(FUNKY)) == FUNKY_MEMBERS;
    assert !Qualifies(Member("==", Public, InstanceScope, Ancestor("Object")), search);
    assert !Qualifies(Member("=~", Public, InstanceScope, Ancestor("Object")), search);
  }

  lemma EqualsSuffixSurvivors(s: Specification)
    requires s == Normalize(EQUALS_SUFFIX)
    ensures Survivors(FUNKY_UNIVERSE, s, OfType(FUNKY)) == {"x="}
  {
    assert s.methods == {Matching(Regex("=$"))} && s.attributes == {};
    assert s.methodOptions == {SuppressAncestorMethods};
    assert SearchFor(s.methodOptions) == Search({Public}, InstanceScope, true);
    OwnFunkyMethods();
    assert !Selected(FUNKY_UNIVERSE, s, "huh?");
    assert !Selected(FUNKY_UNIVERSE, s, "yes!");
    assert MethodMatcherSelects(FUNKY_UNIVERSE, Matching(Regex("=$")), "x=");
  }

  /**
   * With ancestors suppressed, `/=$/` matches only `x=`: the redefined `==`
   * counts as inherited and is left out.
   */
  lemma EqualsSuffixWithSuppression()
    ensures New(FUNKY_UNIVERSE, EQUALS_SUFFIX).Success?
    ensures New(FUNKY_UNIVERSE, EQUALS_SUFFIX).value.joinPointsMatched == {JoinPoint(OfType(FUNKY), "x=", false)}
    ensures New(FUNKY_UNIVERSE, EQUALS_SUFFIX).value.joinPointsNotMatched == {}
  {
    var s := Normalize(EQUALS_SUFFIX);
    assert s.types == {TypeRef(FUNKY)} && s.objects == {} && s.attributes == {};
    assert ValidSpecification(s);
    FunkyTargets(s);
    EqualsSuffixSurvivors(s);
    OneSurvivor(FUNKY_UNIVERSE, s, {OfType(FUNKY)}, OfType(FUNKY), "x=");
  }

  lemma EqualsOperatorPooled()
    ensures "==" in FindMethods(FUNKY_UNIVERSE, OfType(FUNKY), Search({Public}, InstanceScope, false))
  {
    assert Entries(FUNKY_UNIVERSE, OfType(FUNKY)) == FUNKY_MEMBERS;
    assert Qualifies(Member("==", Public, InstanceScope, Ancestor("Object")), Search({Public}, InstanceScope, false));
  }

  lemma EqualsOperatorSurvivors(s: Specification)
    requires s == Normalize(EQUALS_OPERATOR)
    ensures Survivors(FUNKY_UNIVERSE, s, OfType(FUNKY)) == {"=="}
  {
    assert s.methods == {Named("==")} && s.attributes == {};
    assert s.methodOptions == {InstanceMethods};
    assert SearchFor(s.methodOptions) == Search({Public}, InstanceScope, false);
    EqualsOperatorPooled();
    ExactNameSelectsOnlyIt(FUNKY_UNIVERSE, s, OfType(FUNKY), "==");
  }

  /** Without suppression, the exact name `==` is matched on the class that redefines it. */
  lemma EqualsOperatorWithoutSuppression()
    ensures New(FUNKY_UNIVERSE, EQUALS_OPERATOR).Success?
    ensures New(FUNKY_UNIVERSE, EQUALS_OPERATOR).value.joinPointsMatched == {JoinPoint(OfType(FUNKY), "==", false)}
  {
    var s := Normalize(EQUALS_OPERATOR);
    assert s.types == {TypeRef(FUNKY)} && s.objects == {};
    assert ValidSpecification(s);
    FunkyTargets(s);
    EqualsOperatorSurvivors(s);
    OneSurvivor(FUNKY_UNIVERSE, s, {OfType(FUNKY)}, OfType(FUNKY), "==");
  }
}
