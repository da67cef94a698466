/**
 * The specification normaliser: folds the singular and plural option keys
 * a pointcut is constructed with into one canonical specification of sets,
 * and states which option combinations are invalid.
 */
module Specifications {
  import opened Wrappers
  import opened JoinPoints
  import opened AttributeNames
  import opened MethodFinder

  /** A method or attribute matcher: the `all` sentinel, an exact name (string or symbol), or a regular expression. */
  datatype Matcher = All | Named(name: string) | Matching(regex: Regex)

  /** An entry of `types`: a live type, a type name, or a regular expression over type names. */
  datatype TypeSpec = TypeRef(typeName: string) | TypeName(name: string) | TypePattern(regex: Regex)

  /** An entry of `objects`: a live object (compared by identity), or a string or symbol value. */
  datatype ObjectSpec = ObjectRef(id: ObjectId) | TextValue(text: string)

  datatype MethodOption =
    | PublicMethods | ProtectedMethods | PrivateMethods
    | InstanceMethods | ClassMethods | SingletonMethods
    | SuppressAncestorMethods

  /**
   * The recognised options, one field per key. `None` is a key that was not
   * given; a `nil` or `[]` value is `Some([])`. A single value is a one-element sequence.
   */
  datatype Config = Config(
    types: Option<seq<TypeSpec>>,
    singularType: Option<seq<TypeSpec>>,
    objects: Option<seq<ObjectSpec>>,
    singularObject: Option<seq<ObjectSpec>>,
    methods: Option<seq<Matcher>>,
    singularMethod: Option<seq<Matcher>>,
    methodOptions: seq<MethodOption>,
    attributes: Option<seq<Matcher>>,
    singularAttribute: Option<seq<Matcher>>,
    attributeOptions: seq<AttributeOption>)

  /** `Pointcut.new` with no arguments. */
  const NO_OPTIONS: Config := Config(None, None, None, None, None, None, [], None, None, [])

  /** The canonical specification: every option as a set. */
  datatype Specification = Specification(
    types: set<TypeSpec>,
    objects: set<ObjectSpec>,
    methods: set<Matcher>,
    methodOptions: set<MethodOption>,
    attributes: set<Matcher>,
    attributeOptions: set<AttributeOption>)

  function Values<T>(arg: Option<seq<T>>): set<T> {
    if arg.Some? then set x | x in arg.value else {}
  }

  /** No method key and no attribute key was given at all. */
  predicate NoMatchersGiven(c: Config) {
    c.methods.None? && c.singularMethod.None? && c.attributes.None? && c.singularAttribute.None?
  }

  function Normalize(c: Config): Specification {
    Specification(
      Values(c.types) + Values(c.singularType),
      Values(c.objects) + Values(c.singularObject),
      if NoMatchersGiven(c) then {All} else Values(c.methods) + Values(c.singularMethod),
      (set o | o in c.methodOptions),
      Values(c.attributes) + Values(c.singularAttribute),
      (set o | o in c.attributeOptions))
  }

  /** Singular and plural keys are one concept: every given value lands in the plural set, and nothing else does. */
  lemma NormalizeUnionsAliases(c: Config)
    ensures forall t :: t in Normalize(c).types <==>
      (c.types.Some? && t in c.types.value) || (c.singularType.Some? && t in c.singularType.value)
    ensures forall o :: o in Normalize(c).objects <==>
      (c.objects.Some? && o in c.objects.value) || (c.singularObject.Some? && o in c.singularObject.value)
    ensures forall a :: a in Normalize(c).attributes <==>
      (c.attributes.Some? && a in c.attributes.value) || (c.singularAttribute.Some? && a in c.singularAttribute.value)
    ensures !NoMatchersGiven(c) ==> forall m :: m in Normalize(c).methods <==>
      (c.methods.Some? && m in c.methods.value) || (c.singularMethod.Some? && m in c.singularMethod.value)
  {
  }

  /**
   * `methods` defaults to `{all}` exactly when neither methods nor attributes
   * are given; when only attributes are given it stays empty.
   */
  lemma NormalizeDefaultsMethods(c: Config)
    ensures NoMatchersGiven(c) ==> Normalize(c).methods == {All}
    ensures c.methods.None? && c.singularMethod.None? && !NoMatchersGiven(c) ==> Normalize(c).methods == {}
    ensures Normalize(c).methods == {All} ==>
      NoMatchersGiven(c) || (c.methods.Some? && All in c.methods.value) || (c.singularMethod.Some? && All in c.singularMethod.value)
  {
    if !NoMatchersGiven(c) && Normalize(c).methods == {All} {
      assert All in Normalize(c).methods;
    }
  }

  /** `method_options` and `attribute_options` are kept as given. */
  lemma NormalizeKeepsOptions(c: Config)
    ensures forall o :: o in Normalize(c).methodOptions <==> o in c.methodOptions
    ensures forall o :: o in Normalize(c).attributeOptions <==> o in c.attributeOptions
  {
  }

  /** With no arguments the specification is empty except for the default `methods => {all}`. */
  lemma NoOptionsSpecification()
    ensures Normalize(NO_OPTIONS) == Specification({}, {}, {All}, {}, {}, {})
  {
  }

  /** A `nil` or `[]` value for `types` or `objects` means nothing was specified. */
  lemma NilTypesAndObjectsIgnored(c: Config)
    ensures Normalize(c.(types := Some([]))) == Normalize(c.(types := None))
    ensures Normalize(c.(objects := Some([]))) == Normalize(c.(objects := None))
  {
    assert Values(Option<seq<TypeSpec>>.Some([])) == {};
    assert Values(Option<seq<ObjectSpec>>.Some([])) == {};
  }

  // Option validation

  /** `:singleton` may not be combined with `:class`, `:public`, `:protected` or `:private`. */
  predicate SingletonConflict(opts: set<MethodOption>) {
    SingletonMethods in opts &&
    (ClassMethods in opts || PublicMethods in opts || ProtectedMethods in opts || PrivateMethods in opts)
  }

  /** The specifications a pointcut can be built from: no `attributes => :all`, no singleton conflict. */
  predicate ValidSpecification(s: Specification) {
    All !in s.attributes && !SingletonConflict(s.methodOptions)
  }

  // From method options to a method-finder search

  /** The visibilities named among the method options. */
  function RequestedVisibilities(opts: set<MethodOption>): (vs: set<Visibility>)
    ensures Public in vs <==> PublicMethods in opts
    ensures Protected in vs <==> ProtectedMethods in opts
    ensures Private in vs <==> PrivateMethods in opts
  {
    (if PublicMethods in opts then {Public} else {}) +
    (if ProtectedMethods in opts then {Protected} else {}) +
    (if PrivateMethods in opts then {Private} else {})
  }

  /**
   * The search a set of method options asks for: the requested visibilities
   * (public by default), singleton scope if asked, else class scope if asked,
   * else instance scope; inherited members unless suppressed.
   */
  function SearchFor(opts: set<MethodOption>): (s: Search)
    ensures s.visibilities != {}
    ensures s.scope == SingletonScope <==> SingletonMethods in opts
    ensures s.scope == ClassScope <==> ClassMethods in opts && SingletonMethods !in opts
    ensures s.suppressAncestors <==> SuppressAncestorMethods in opts
    ensures PublicMethods !in opts && ProtectedMethods !in opts && PrivateMethods !in opts ==> s.visibilities == {Public}
    ensures RequestedVisibilities(opts) != {} ==> s.visibilities == RequestedVisibilities(opts)
  {
    var vs := RequestedVisibilities(opts);
    Search(
      if vs == {} then {Public} else vs,
      if SingletonMethods in opts then SingletonScope
      else if ClassMethods in opts then ClassScope
      else InstanceScope,
      SuppressAncestorMethods in opts)
  }

  /** Whether the join points found are class methods. */
  predicate IsClassSearch(opts: set<MethodOption>) {
    ClassMethods in opts
  }
}
