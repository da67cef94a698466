/**
 * Singleton methods: `NotQuiteEmpty` has a class-level singleton method,
 * `Empty` has none; one `Empty` instance has a singleton method of its own,
 * while an instance of `NotQuiteEmpty` has none.
 */
module SingletonFixtures {
  import opened Wrappers
  import opened JoinPoints
  import opened MethodFinder
  import opened Specifications
  import opened CandidateResolver
  import opened Pointcuts
  import Fixtures

  const NOT_QUITE_EMPTY := "NotQuiteEmpty"
  const EMPTY := "Empty"

  /** An instance of `NotQuiteEmpty`. */
  const PLAIN_OBJECT: ObjectId := 1
  /** An instance of `Empty` with a singleton method. */
  const SINGLETON_OBJECT: ObjectId := 2

  const SINGLETON_UNIVERSE: Universe := Universe(
    {NOT_QUITE_EMPTY, EMPTY},
    map[OfType(NOT_QUITE_EMPTY) := {Member("a_class_singleton_method", Public, SingletonScope, Own)},
        OfType(EMPTY) := {},
        OfObject(PLAIN_OBJECT) := {},
        OfObject(SINGLETON_OBJECT) := {Member("a_singleton_method", Public, SingletonScope, Own)}],
    Fixtures.NoRegex)

  /** `:types => [NotQuiteEmpty, Empty], :methods => :all, :method_options => [:singleton, :suppress_ancestor_methods]` */
  const SINGLETON_TYPES: Config :=
    NO_OPTIONS.(types := Some([TypeRef(NOT_QUITE_EMPTY), TypeRef(EMPTY)]), methods := Some([All]),
                methodOptions := [SingletonMethods, SuppressAncestorMethods])

  /** `:objects => [notQuiteEmpty, objectWithSingletonMethod], :methods => :all, :method_options => [:singleton]` */
  const SINGLETON_OBJECTS: Config :=
    NO_OPTIONS.(objects := Some([ObjectRef(PLAIN_OBJECT), ObjectRef(SINGLETON_OBJECT)]), methods := Some([All]),
                methodOptions := [SingletonMethods])

  /** The normalised specification of `SINGLETON_TYPES`. */
  const TYPES_SPEC: Specification :=
    Specification(AsRefs({NOT_QUITE_EMPTY, EMPTY}), {}, {All}, {SingletonMethods, SuppressAncestorMethods}, {}, {})

  lemma SingletonTypesNormalize()
    ensures Normalize(SINGLETON_TYPES) == TYPES_SPEC
  {
    assert Normalize(SINGLETON_TYPES).types == {TypeRef(NOT_QUITE_EMPTY), TypeRef(EMPTY)};
  }

  /** Proof helper: the two types as targets. */
  lemma SingletonTypeNames(names: set<string>)
    requires names == {NOT_QUITE_EMPTY, EMPTY}
    ensures (set t | t in names :: OfType(t)) == {OfType(NOT_QUITE_EMPTY), OfType(EMPTY)}
  {
  }

  lemma SingletonTypesResolve()
    ensures ResolveTypes(SINGLETON_UNIVERSE, TYPES_SPEC.types).matched == {NOT_QUITE_EMPTY, EMPTY}
  {
    KnownTypesResolve(SINGLETON_UNIVERSE, {NOT_QUITE_EMPTY, EMPTY});
  }

  lemma SingletonTypeTargets()
    ensures Targets(ResolveTypes(SINGLETON_UNIVERSE, TYPES_SPEC.types), ResolveObjects(TYPES_SPEC.objects))
         == {OfType(NOT_QUITE_EMPTY), OfType(EMPTY)}
  {
    var ct := ResolveTypes(SINGLETON_UNIVERSE, TYPES_SPEC.types);
    var co := ResolveObjects(TYPES_SPEC.objects);
    SingletonTypesResolve();
    assert co.matched == {};
    TypeTargetsOnly(ct, co);
    SingletonTypeNames(ct.matched);
  }

  lemma SingletonTypeSurvivors()
    ensures Survivors(SINGLETON_UNIVERSE, TYPES_SPEC, OfType(NOT_QUITE_EMPTY)) == {"a_class_singleton_method"}
    ensures Survivors(SINGLETON_UNIVERSE, TYPES_SPEC, OfType(EMPTY)) == {}
  {
    assert SearchFor(TYPES_SPEC.methodOptions) == Search({Public}, SingletonScope, true);
    assert MethodMatcherSelects(SINGLETON_UNIVERSE, All, "a_class_singleton_method");
    assert Entries(SINGLETON_UNIVERSE, OfType(EMPTY)) == {};
  }

  lemma SingletonTypeJoinPoints()
    ensures Matched(SINGLETON_UNIVERSE, TYPES_SPEC, {OfType(NOT_QUITE_EMPTY), OfType(EMPTY)})
         == {JoinPoint(OfType(NOT_QUITE_EMPTY), "a_class_singleton_method", false)}
    ensures NotMatched(SINGLETON_UNIVERSE, TYPES_SPEC, {OfType(NOT_QUITE_EMPTY), OfType(EMPTY)})
         == {JoinPoint(OfType(EMPTY), ALL_METHODS, false)}
  {
    SingletonTypeSurvivors();
    assert !IsClassSearch(TYPES_SPEC.methodOptions);
    OneSurvivor(SINGLETON_UNIVERSE, TYPES_SPEC, {OfType(NOT_QUITE_EMPTY), OfType(EMPTY)},
                OfType(NOT_QUITE_EMPTY), "a_class_singleton_method");
    OtherSentinel(OfType(NOT_QUITE_EMPTY), OfType(EMPTY), false);
  }

  /**
   * Searching singleton methods of the two types matches the class-level
   * singleton method of `NotQuiteEmpty` and records `Empty` as not matched.
   */
  lemma SingletonMethodsOfTypes()
    ensures New(SINGLETON_UNIVERSE, SINGLETON_TYPES).Success?
    ensures New(SINGLETON_UNIVERSE, SINGLETON_TYPES).value.joinPointsMatched
         == {JoinPoint(OfType(NOT_QUITE_EMPTY), "a_class_singleton_method", false)}
    ensures New(SINGLETON_UNIVERSE, SINGLETON_TYPES).value.joinPointsNotMatched
         == {JoinPoint(OfType(EMPTY), ALL_METHODS, false)}
  {
    SingletonTypesNormalize();
    assert ValidSpecification(TYPES_SPEC);
    SingletonTypeTargets();
    SingletonTypeJoinPoints();
  }

  /** The normalised specification of `SINGLETON_OBJECTS`. */
  const OBJECTS_SPEC: Specification :=
    Specification({}, {ObjectRef(PLAIN_OBJECT), ObjectRef(SINGLETON_OBJECT)}, {All}, {SingletonMethods}, {}, {})

  lemma SingletonObjectsNormalize()
    ensures Normalize(SINGLETON_OBJECTS) == OBJECTS_SPEC
  {
    assert Normalize(SINGLETON_OBJECTS).objects == {ObjectRef(PLAIN_OBJECT), ObjectRef(SINGLETON_OBJECT)};
  }

  lemma SingletonObjectTargets()
    ensures Targets(ResolveTypes(SINGLETON_UNIVERSE, OBJECTS_SPEC.types), ResolveObjects(OBJECTS_SPEC.objects))
         == {OfObject(PLAIN_OBJECT), OfObject(SINGLETON_OBJECT)}
  {
    assert ResolveTypes(SINGLETON_UNIVERSE, OBJECTS_SPEC.types).matched == {};
    assert ResolveObjects(OBJECTS_SPEC.objects).matched == {PLAIN_OBJECT, SINGLETON_OBJECT};
  }

  lemma SingletonObjectSurvivors()
    ensures Survivors(SINGLETON_UNIVERSE, OBJECTS_SPEC, OfObject(SINGLETON_OBJECT)) == {"a_singleton_method"}
    ensures Survivors(SINGLETON_UNIVERSE, OBJECTS_SPEC, OfObject(PLAIN_OBJECT)) == {}
  {
    assert SearchFor(OBJECTS_SPEC.methodOptions) == Search({Public}, SingletonScope, false);
    assert MethodMatcherSelects(SINGLETON_UNIVERSE, All, "a_singleton_method");
    assert Entries(SINGLETON_UNIVERSE, OfObject(PLAIN_OBJECT)) == {};
  }

  lemma SingletonObjectJoinPoints()
    ensures Matched(SINGLETON_UNIVERSE, OBJECTS_SPEC, {OfObject(PLAIN_OBJECT), OfObject(SINGLETON_OBJECT)})
         == {JoinPoint(OfObject(SINGLETON_OBJECT), "a_singleton_method", false)}
    ensures NotMatched(SINGLETON_UNIVERSE, OBJECTS_SPEC, {OfObject(PLAIN_OBJECT), OfObject(SINGLETON_OBJECT)})
         == {JoinPoint(OfObject(PLAIN_OBJECT), ALL_METHODS, false)}
  {
    SingletonObjectSurvivors();
    assert !IsClassSearch(OBJECTS_SPEC.methodOptions);
    OneSurvivor(SINGLETON_UNIVERSE, OBJECTS_SPEC, {OfObject(SINGLETON_OBJECT), OfObject(PLAIN_OBJECT)},
                OfObject(SINGLETON_OBJECT), "a_singleton_method");
    OtherSentinel(OfObject(SINGLETON_OBJECT), OfObject(PLAIN_OBJECT), false);
  }

  /**
   * Searching singleton methods of the two objects matches the singleton
   * method of the one object that has it and records the other as not matched.
   */
  lemma SingletonMethodsOfObjects()
    ensures New(SINGLETON_UNIVERSE, SINGLETON_OBJECTS).Success?
    ensures New(SINGLETON_UNIVERSE, SINGLETON_OBJECTS).value.joinPointsMatched
         == {JoinPoint(OfObject(SINGLETON_OBJECT), "a_singleton_method", false)}
    ensures New(SINGLETON_UNIVERSE, SINGLETON_OBJECTS).value.joinPointsNotMatched
         == {JoinPoint(OfObject(PLAIN_OBJECT), ALL_METHODS, false)}
  {
    SingletonObjectsNormalize();
    assert ValidSpecification(OBJECTS_SPEC);
    assert UnresolvableObjectNames(SINGLETON_UNIVERSE, OBJECTS_SPEC) == {};
    SingletonObjectTargets();
    SingletonObjectJoinPoints();
  }
}
