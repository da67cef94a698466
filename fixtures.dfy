/**
 * The example classes the behaviour is pinned down by, as concrete registry
 * data, and the concrete cases checked against them.
 */
module Fixtures {
  import opened Wrappers
  import opened JoinPoints
  import opened AttributeNames
  import opened MethodFinder
  import opened Specifications
  import opened CandidateResolver
  import opened Pointcuts

  const PUBLIC_INSTANCE := "ClassWithPublicInstanceMethod"
  const PROTECTED_INSTANCE := "ClassWithProtectedInstanceMethod"
  const PRIVATE_INSTANCE := "ClassWithPrivateInstanceMethod"
  const PUBLIC_CLASS := "ClassWithPublicClassMethod"
  const PRIVATE_CLASS := "ClassWithPrivateClassMethod"

  const EXAMPLE_TYPES: set<string> :=
    {PUBLIC_INSTANCE, PROTECTED_INSTANCE, PRIVATE_INSTANCE, PUBLIC_CLASS, PRIVATE_CLASS}

  /** Two of the instance methods every class inherits from `Object`. */
  const FROM_OBJECT: set<Member> := {
    Member("==", Public, InstanceScope, Ancestor("Object")),
    Member("dup", Public, InstanceScope, Ancestor("Object"))}

  const EXAMPLE_MEMBERS: map<Target, set<Member>> := map[
    OfType(PUBLIC_INSTANCE) := {Member("public_instance_test_method", Public, InstanceScope, Own)} + FROM_OBJECT,
    OfType(PROTECTED_INSTANCE) := {Member("protected_instance_test_method", Protected, InstanceScope, Own)} + FROM_OBJECT,
    OfType(PRIVATE_INSTANCE) := {Member("private_instance_test_method", Private, InstanceScope, Own)} + FROM_OBJECT,
    OfType(PUBLIC_CLASS) := {Member("public_class_test_method", Public, ClassScope, Own)} + FROM_OBJECT,
    OfType(PRIVATE_CLASS) := {Member("private_class_test_method", Private, ClassScope, Own)} + FROM_OBJECT]

  /** A regular-expression oracle that matches nothing, for cases that use no patterns. */
  function NoRegex(src: string, subject: string): bool {
    false
  }

  /** The source of `/Class.*Method/`. */
  const CLASS_METHOD_SOURCE := "Class.*Method"

  /**
   * The one pattern the example cases use: `/Class.*Method/` matches a name
   * that contains `Class` followed, later, by `Method`; every example class
   * name starts with `Class` and ends with `Method`, which suffices here.
   */
  predicate ClassMethodRegex(src: string, subject: string) {
    src == CLASS_METHOD_SOURCE && |subject| >= 11 && subject[..5] == "Class" && subject[|subject| - 6..] == "Method"
  }

  const EXAMPLES: Universe := Universe(EXAMPLE_TYPES, EXAMPLE_MEMBERS, ClassMethodRegex)

  /** `:types => @example_types, :method_options => :suppress_ancestor_methods` */
  const SUPPRESSED_OPTIONS: Config :=
    NO_OPTIONS.(types := Some([TypeRef(PUBLIC_INSTANCE), TypeRef(PROTECTED_INSTANCE), TypeRef(PRIVATE_INSTANCE),
                               TypeRef(PUBLIC_CLASS), TypeRef(PRIVATE_CLASS)]),
                methodOptions := [SuppressAncestorMethods])

  /** `:types => /Class.*Method/, :method_options => :suppress_ancestor_methods` */
  const PATTERN_OPTIONS: Config :=
    NO_OPTIONS.(types := Some([TypePattern(Regex(CLASS_METHOD_SOURCE))]), methodOptions := [SuppressAncestorMethods])

  /** `:types => @example_types.map {|t| t.to_s}, :method_options => :suppress_ancestor_methods` */
  const NAME_OPTIONS: Config :=
    NO_OPTIONS.(types := Some([TypeName(PUBLIC_INSTANCE), TypeName(PROTECTED_INSTANCE), TypeName(PRIVATE_INSTANCE),
                               TypeName(PUBLIC_CLASS), TypeName(PRIVATE_CLASS)]),
                methodOptions := [SuppressAncestorMethods])

  /** The normalised specification of `SUPPRESSED_OPTIONS`. */
  const SUPPRESSED: Specification :=
    Specification(AsRefs(EXAMPLE_TYPES), {}, {All}, {SuppressAncestorMethods}, {}, {})

  /** `SUPPRESSED` with the types given as `/Class.*Method/`, and by name. */
  const PATTERN_SPEC: Specification := SUPPRESSED.(types := {TypePattern(Regex(CLASS_METHOD_SOURCE))})
  const NAME_SPEC: Specification := SUPPRESSED.(types := AsNames(EXAMPLE_TYPES))

  const EXAMPLE_TARGETS: set<Target> :=
    {OfType(PUBLIC_INSTANCE), OfType(PROTECTED_INSTANCE), OfType(PRIVATE_INSTANCE),
     OfType(PUBLIC_CLASS), OfType(PRIVATE_CLASS)}

  lemma ExampleTypesResolve()
    ensures ResolveTypes(EXAMPLES, SUPPRESSED.types).matched == EXAMPLE_TYPES
  {
    KnownTypesResolve(EXAMPLES, EXAMPLE_TYPES);
  }

  /** Proof helper: the example types as targets. */
  lemma ExampleTypeTargets()
    ensures (set t | t in EXAMPLE_TYPES :: OfType(t)) == EXAMPLE_TARGETS
  {
  }

  lemma ExampleTargets()
    ensures Targets(ResolveTypes(EXAMPLES, SUPPRESSED.types), ResolveObjects({})) == EXAMPLE_TARGETS
  {
    ExampleTypesResolve();
    ExampleTypeTargets();
    var ct := ResolveTypes(EXAMPLES, SUPPRESSED.types);
    TypeTargetsOnly(ct, ResolveObjects({}));
  }

  lemma PublicInstanceSurvivors()
    ensures Survivors(EXAMPLES, SUPPRESSED, OfType(PUBLIC_INSTANCE)) == {"public_instance_test_method"}
  {
    assert SearchFor(SUPPRESSED.methodOptions) == Search({Public}, InstanceScope, true);
    assert Entries(EXAMPLES, OfType(PUBLIC_INSTANCE))
        == {Member("public_instance_test_method", Public, InstanceScope, Own)} + FROM_OBJECT;
  }

  /** With ancestors suppressed, a type whose own member is not a public instance method has an empty pool. */
  lemma NoPublicInstanceSurvivor(t: string, own: Member)
    requires t in EXAMPLE_TYPES - {PUBLIC_INSTANCE}
    requires EXAMPLE_MEMBERS[OfType(t)] == {own} + FROM_OBJECT
    requires own.owner == Own && (own.visibility != Public || own.scope != InstanceScope)
    ensures Survivors(EXAMPLES, SUPPRESSED, OfType(t)) == {}
  {
    var search := SearchFor(SUPPRESSED.methodOptions);
    assert search == Search({Public}, InstanceScope, true);
    assert !Qualifies(own, search);
    assert forall m :: m in FROM_OBJECT ==> !Qualifies(m, search);
    assert FindMethods(EXAMPLES, OfType(t), search) == {};
  }

  lemma ProtectedInstanceSurvivors()
    ensures Survivors(EXAMPLES, SUPPRESSED, OfType(PROTECTED_INSTANCE)) == {}
  {
    NoPublicInstanceSurvivor(PROTECTED_INSTANCE, Member("protected_instance_test_method", Protected, InstanceScope, Own));
  }

  lemma PrivateInstanceSurvivors()
    ensures Survivors(EXAMPLES, SUPPRESSED, OfType(PRIVATE_INSTANCE)) == {}
  {
    NoPublicInstanceSurvivor(PRIVATE_INSTANCE, Member("private_instance_test_method", Private, InstanceScope, Own));
  }

  lemma PublicClassSurvivors()
    ensures Survivors(EXAMPLES, SUPPRESSED, OfType(PUBLIC_CLASS)) == {}
  {
    NoPublicInstanceSurvivor(PUBLIC_CLASS, Member("public_class_test_method", Public, ClassScope, Own));
  }

  lemma PrivateClassSurvivors()
    ensures Survivors(EXAMPLES, SUPPRESSED, OfType(PRIVATE_CLASS)) == {}
  {
    NoPublicInstanceSurvivor(PRIVATE_CLASS, Member("private_class_test_method", Private, ClassScope, Own));
  }

  const PUB_JP := JoinPoint(OfType(PUBLIC_INSTANCE), "public_instance_test_method", false)

  const EXAMPLE_SENTINELS: set<JoinPoint> :=
    {JoinPoint(OfType(PROTECTED_INSTANCE), ALL_METHODS, false),
     JoinPoint(OfType(PRIVATE_INSTANCE), ALL_METHODS, false),
     JoinPoint(OfType(PUBLIC_CLASS), ALL_METHODS, false),
     JoinPoint(OfType(PRIVATE_CLASS), ALL_METHODS, false)}

  lemma OtherTargetsKeepNothing()
    ensures forall t :: t in EXAMPLE_TARGETS && t != OfType(PUBLIC_INSTANCE) ==> Survivors(EXAMPLES, SUPPRESSED, t) == {}
  {
    ProtectedInstanceSurvivors();
    PrivateInstanceSurvivors();
    PublicClassSurvivors();
    PrivateClassSurvivors();
    forall t | t in EXAMPLE_TARGETS && t != OfType(PUBLIC_INSTANCE)
      ensures Survivors(EXAMPLES, SUPPRESSED, t) == {}
    {
      if t == OfType(PROTECTED_INSTANCE) {
      } else if t == OfType(PRIVATE_INSTANCE) {
      } else if t == OfType(PUBLIC_CLASS) {
      } else {
        assert t == OfType(PRIVATE_CLASS);
      }
    }
  }

  lemma SuppressedJoinPoints()
    ensures Matched(EXAMPLES, SUPPRESSED, EXAMPLE_TARGETS) == {PUB_JP}
    ensures NotMatched(EXAMPLES, SUPPRESSED, EXAMPLE_TARGETS) == EXAMPLE_SENTINELS
  {
    PublicInstanceSurvivors();
    OtherTargetsKeepNothing();
    assert !IsClassSearch(SUPPRESSED.methodOptions);
    OneSurvivor(EXAMPLES, SUPPRESSED, EXAMPLE_TARGETS, OfType(PUBLIC_INSTANCE), "public_instance_test_method");
    ExampleSentinels();
  }

  lemma ExampleSentinels()
    ensures (set t | t in EXAMPLE_TARGETS - {OfType(PUBLIC_INSTANCE)} :: JoinPoint(t, ALL_METHODS, false))
         == EXAMPLE_SENTINELS
  {
    assert EXAMPLE_TARGETS - {OfType(PUBLIC_INSTANCE)}
        == {OfType(PROTECTED_INSTANCE), OfType(PRIVATE_INSTANCE), OfType(PUBLIC_CLASS), OfType(PRIVATE_CLASS)};
  }

  /**
   * The example types with `:suppress_ancestor_methods` and the default
   * `methods => :all`: only the public instance method matches, and each of
   * the four other types gets an instance-scoped `all` sentinel.
   */
  lemma SuppressedExampleTypes()
    ensures Resolve(EXAMPLES, SUPPRESSED).joinPointsMatched == {PUB_JP}
    ensures Resolve(EXAMPLES, SUPPRESSED).joinPointsNotMatched == EXAMPLE_SENTINELS
  {
    ExampleTargets();
    SuppressedJoinPoints();
  }

  lemma SuppressedOptionsNormalize()
    ensures Normalize(SUPPRESSED_OPTIONS) == SUPPRESSED
  {
    assert Normalize(SUPPRESSED_OPTIONS).types == AsRefs(EXAMPLE_TYPES);
  }

  /** The same case through `Pointcut.new` with the suite's options. */
  lemma SuppressedExampleTypesConstructed()
    ensures New(EXAMPLES, SUPPRESSED_OPTIONS).Success?
    ensures New(EXAMPLES, SUPPRESSED_OPTIONS).value.joinPointsMatched == {PUB_JP}
    ensures New(EXAMPLES, SUPPRESSED_OPTIONS).value.joinPointsNotMatched == EXAMPLE_SENTINELS
  {
    SuppressedOptionsNormalize();
    assert ValidSpecification(SUPPRESSED);
    SuppressedExampleTypes();
  }

  /** Every example class name starts with `Class` and ends with `Method`. */
  lemma ExampleNameMatchesPattern(t: string)
    requires t in EXAMPLE_TYPES
    ensures ClassMethodRegex(CLASS_METHOD_SOURCE, t)
  {
    assert t[..5] == "Class" && t[|t| - 6..] == "Method" by {
      if t == PUBLIC_INSTANCE {
        assert t[..5] == "Class" && t[|t| - 6..] == "Method";
      } else if t == PROTECTED_INSTANCE {
        assert t[..5] == "Class" && t[|t| - 6..] == "Method";
      } else if t == PRIVATE_INSTANCE {
        assert t[..5] == "Class" && t[|t| - 6..] == "Method";
      } else if t == PUBLIC_CLASS {
        assert t[..5] == "Class" && t[|t| - 6..] == "Method";
      } else {
        assert t[..5] == "Class" && t[|t| - 6..] == "Method";
      }
    }
  }

  /** Among the known types, `/Class.*Method/` matches exactly the five example classes. */
  lemma ClassMethodPatternMatchesExamples()
    ensures forall t :: t in EXAMPLES.knownTypes ==> (EXAMPLES.matches(CLASS_METHOD_SOURCE, t) <==> t in EXAMPLE_TYPES)
  {
    forall t | t in EXAMPLE_TYPES ensures ClassMethodRegex(CLASS_METHOD_SOURCE, t) {
      ExampleNameMatchesPattern(t);
    }
  }

  /**
   * The same case with the types given by name and as `/Class.*Method/`:
   * both give `{pub_jp}` and the four instance-scoped sentinels.
   */
  lemma SuppressedExampleTypeSpellings()
    ensures Resolve(EXAMPLES, NAME_SPEC).joinPointsMatched == {PUB_JP}
    ensures Resolve(EXAMPLES, NAME_SPEC).joinPointsNotMatched == EXAMPLE_SENTINELS
    ensures Resolve(EXAMPLES, PATTERN_SPEC).joinPointsMatched == {PUB_JP}
    ensures Resolve(EXAMPLES, PATTERN_SPEC).joinPointsNotMatched == EXAMPLE_SENTINELS
  {
    SuppressedExampleTypes();
    ClassMethodPatternMatchesExamples();
    assert SUPPRESSED.(types := AsRefs(EXAMPLE_TYPES)) == SUPPRESSED;
    TypeSpellingsGiveSameJoinPoints(EXAMPLES, SUPPRESSED, EXAMPLE_TYPES, Regex(CLASS_METHOD_SOURCE));
  }

  lemma PatternOptionsNormalize()
    ensures Normalize(PATTERN_OPTIONS) == PATTERN_SPEC
  {
  }

  lemma NameOptionsNormalize()
    ensures Normalize(NAME_OPTIONS) == NAME_SPEC
  {
    assert Normalize(NAME_OPTIONS).types == AsNames(EXAMPLE_TYPES);
  }

  /** `Pointcut.new` with the types given as `/Class.*Method/` gives the same join points. */
  lemma ExampleTypesByPattern()
    ensures New(EXAMPLES, PATTERN_OPTIONS).Success?
    ensures New(EXAMPLES, PATTERN_OPTIONS).value.joinPointsMatched == {PUB_JP}
    ensures New(EXAMPLES, PATTERN_OPTIONS).value.joinPointsNotMatched == EXAMPLE_SENTINELS
  {
    PatternOptionsNormalize();
    assert ValidSpecification(PATTERN_SPEC);
    SuppressedExampleTypeSpellings();
  }

  /** `Pointcut.new` with the types given by name gives the same join points. */
  lemma ExampleTypesByName()
    ensures New(EXAMPLES, NAME_OPTIONS).Success?
    ensures New(EXAMPLES, NAME_OPTIONS).value.joinPointsMatched == {PUB_JP}
    ensures New(EXAMPLES, NAME_OPTIONS).value.joinPointsNotMatched == EXAMPLE_SENTINELS
  {
    NameOptionsNormalize();
    assert ValidSpecification(NAME_SPEC);
    SuppressedExampleTypeSpellings();
  }

  lemma AccessorsExample()
    ensures Accessors({"a", "b", "c", "d"}) == {"a", "a=", "b", "b=", "c", "c=", "d", "d="}
  {
    var w := set a | a in {"a", "b", "c", "d"} :: WriterName(a);
    assert w == {"a=", "b=", "c=", "d="} by {
      assert WriterName("a") == "a=" && WriterName("b") == "b=";
      assert WriterName("c") == "c=" && WriterName("d") == "d=";
    }
  }

  /** Proof helper: the bare tokens carry no sigil. */
  lemma BareHasNoSigil()
    ensures forall a :: a in {"a", "b", "c", "d"} ==> !HasSigil(a)
  {
    assert !HasSigil("a") && !HasSigil("b") && !HasSigil("c") && !HasSigil("d");
  }

  lemma BareExample()
    ensures MakeAttributeMethodNames({"a", "b", "c", "d"}) == {"a", "a=", "b", "b=", "c", "c=", "d", "d="}
  {
    BareHasNoSigil();
    MakeAttributeMethodNamesIgnoresSigil({"a", "b", "c", "d"});
    AccessorsExample();
  }

  /** Proof helper: prefixing the bare tokens, as a set comprehension. */
  lemma PrefixedLiteral(p: string)
    ensures WithPrefix(p, {"a", "b", "c", "d"}) == {p + "a", p + "b", p + "c", p + "d"}
  {
  }

  /** Proof helper: a one-character prefix glued onto each bare name spells the prefixed token. */
  lemma SigilLiteral(c: char)
    ensures {[c] + "a", [c] + "b", [c] + "c", [c] + "d"} == {[c, 'a'], [c, 'b'], [c, 'c'], [c, 'd']}
  {
    assert [c] + "a" == [c, 'a'];
    assert [c] + "b" == [c, 'b'];
    assert [c] + "c" == [c, 'c'];
    assert [c] + "d" == [c, 'd'];
  }

  /** Proof helper: equal token sets give equal names; a congruence step that keeps the literal proofs small. */
  lemma SameTokensSameNames(x: set<string>, y: set<string>)
    requires x == y
    ensures MakeAttributeMethodNames(x) == MakeAttributeMethodNames(y)
  {
  }

  lemma AtSignExample()
    ensures MakeAttributeMethodNames({"@a", "@b", "@c", "@d"}) == MakeAttributeMethodNames({"a", "b", "c", "d"})
  {
    BareHasNoSigil();
    MakeAttributeMethodNamesIgnoresSigil({"a", "b", "c", "d"});
    PrefixedLiteral("@");
    SigilLiteral('@');
    SameTokensSameNames({"@a", "@b", "@c", "@d"}, WithPrefix("@", {"a", "b", "c", "d"}));
  }

  /** Colon-prefixed string tokens; Ruby symbols are the bare case. */
  lemma ColonPrefixExample()
    ensures MakeAttributeMethodNames({":a", ":b", ":c", ":d"}) == MakeAttributeMethodNames({"a", "b", "c", "d"})
  {
    BareHasNoSigil();
    MakeAttributeMethodNamesIgnoresSigil({"a", "b", "c", "d"});
    PrefixedLiteral(":");
    SigilLiteral(':');
    SameTokensSameNames({":a", ":b", ":c", ":d"}, WithPrefix(":", {"a", "b", "c", "d"}));
  }

  /**
   * `make_attribute_method_names` on `@`-prefixed strings and on bare strings
   * gives `a a= b b= c c= d d=`. The symbols `:a` to `:d` name `a` to `d`, so
   * with strings and symbols not distinguished they are the bare case; the
   * `:`-prefixed strings are a colon-prefixed token, which gives the same names.
   */
  lemma MakeAttributeMethodNamesExample()
    ensures MakeAttributeMethodNames({"@a", "@b", "@c", "@d"})
         == MakeAttributeMethodNames({"a", "b", "c", "d"})
         == MakeAttributeMethodNames({":a", ":b", ":c", ":d"})
         == {"a", "a=", "b", "b=", "c", "c=", "d", "d="}
  {
    BareExample();
    AtSignExample();
    ColonPrefixExample();
  }
}
