/**
 * The pointcut: normalises its options, validates them, resolves the
 * candidate targets, and for each target keeps the members of its pool that
 * the method and attribute matchers select. A target with no such member is
 * recorded by one not-matched join point named `all`.
 */
module Pointcuts {
  import opened Wrappers
  import opened JoinPoints
  import opened AttributeNames
  import opened MethodFinder
  import opened Specifications
  import opened CandidateResolver

  /** The conditions the constructor raises. */
  datatype Error = InvalidOptions | NameResolutionFailure

  datatype Pointcut = Pointcut(
    specification: Specification,
    candidateTypes: CandidateTypes,
    candidateObjects: CandidateObjects,
    joinPointsMatched: set<JoinPoint>,
    joinPointsNotMatched: set<JoinPoint>)
  {
    /** `empty?` */
    predicate IsEmpty() {
      joinPointsMatched == {} && joinPointsNotMatched == {}
    }

    /** `==` and its alias `eql?`: the same specification and the same join points. */
    predicate Equals(other: Pointcut) {
      && specification == other.specification
      && joinPointsMatched == other.joinPointsMatched
      && joinPointsNotMatched == other.joinPointsNotMatched
    }
  }

  // The name filter

  predicate MethodMatcherSelects(u: Universe, m: Matcher, n: string) {
    match m
    case All => true
    case Named(x) => x == n
    case Matching(r) => u.matches(r.source, n)
  }

  /** Whether an attribute matcher names the attribute `a` (a reader name). */
  predicate AttributeMatcherSelects(u: Universe, m: Matcher, a: string) {
    match m
    case All => false
    case Named(x) => StripSigil(x) == a
    case Matching(r) => u.matches(NormalizeAttributePattern(r.source), a)
  }

  predicate SomeAttributeNames(u: Universe, attrs: set<Matcher>, a: string) {
    exists m :: m in attrs && AttributeMatcherSelects(u, m, a)
  }

  /**
   * A writer name `a=` is selected when writers are wanted and `a` is a named
   * attribute; any other name when readers are wanted and it is a named attribute.
   */
  predicate AttributeSelects(u: Universe, attrs: set<Matcher>, opts: set<AttributeOption>, n: string) {
    if IsWriterName(n) then WantsWriters(opts) && SomeAttributeNames(u, attrs, ReaderOf(n))
    else WantsReaders(opts) && SomeAttributeNames(u, attrs, n)
  }

  predicate MethodSelects(u: Universe, methods: set<Matcher>, n: string) {
    exists m :: m in methods && MethodMatcherSelects(u, m, n)
  }

  /** The filter: the method matchers together with the expanded attribute matchers. */
  predicate Selected(u: Universe, s: Specification, n: string) {
    MethodSelects(u, s.methods, n) || AttributeSelects(u, s.attributes, s.attributeOptions, n)
  }

  /** The members of a target's pool that pass the filter. */
  function Survivors(u: Universe, s: Specification, t: Target): set<string> {
    set n | n in FindMethods(u, t, SearchFor(s.methodOptions)) && Selected(u, s, n)
  }

  // Join points

  function Targets(ct: CandidateTypes, co: CandidateObjects): set<Target> {
    (set t | t in ct.matched :: OfType(t)) + (set o | o in co.matched :: OfObject(o))
  }

  /** Proof helper: with no objects, the targets are the types alone. */
  lemma TypeTargetsOnly(ct: CandidateTypes, co: CandidateObjects)
    requires co.matched == {}
    ensures Targets(ct, co) == set t | t in ct.matched :: OfType(t)
  {
  }

  function Matched(u: Universe, s: Specification, targets: set<Target>): set<JoinPoint> {
    set t, n | t in targets && n in Survivors(u, s, t) :: JoinPoint(t, n, IsClassSearch(s.methodOptions))
  }

  function NotMatched(u: Universe, s: Specification, targets: set<Target>): set<JoinPoint> {
    set t | t in targets && Survivors(u, s, t) == {} :: JoinPoint(t, ALL_METHODS, IsClassSearch(s.methodOptions))
  }

  /** The pointcut of a valid specification. */
  function Resolve(u: Universe, s: Specification): Pointcut {
    var ct := ResolveTypes(u, s.types);
    var co := ResolveObjects(s.objects);
    var targets := Targets(ct, co);
    Pointcut(s, ct, co, Matched(u, s, targets), NotMatched(u, s, targets))
  }

  /**
   * `Pointcut.new`: fails with `InvalidOptions` for `attributes => :all` or a
   * singleton conflict, then, when a method matcher other than the default
   * `all` is given, with a name-resolution failure for a string or symbol
   * object that names no type; otherwise succeeds with the pointcut resolved
   * from the normalised specification.
   */
  function New(u: Universe, c: Config): (r: Result<Pointcut, Error>)
    ensures !ValidSpecification(Normalize(c)) <==> r == Failure(InvalidOptions)
    ensures r == Failure(NameResolutionFailure) <==>
      ValidSpecification(Normalize(c)) && UnresolvableObjectNames(u, Normalize(c)) != {}
    ensures r.Success? ==> r.value.specification == Normalize(c)
    ensures r.Success? ==> r.value == Resolve(u, Normalize(c))
  {
    var s := Normalize(c);
    if !ValidSpecification(s) then Failure(InvalidOptions)
    else if UnresolvableObjectNames(u, s) != {} then Failure(NameResolutionFailure)
    else Success(Resolve(u, s))
  }

  // What each resolved target contributes

  /**
   * A target contributes one matched join point per surviving member and,
   * exactly when nothing survives, one not-matched join point named `all`
   * whose class flag is that of the search.
   */
  lemma TargetContribution(u: Universe, s: Specification, targets: set<Target>, t: Target)
    requires t in targets
    ensures forall n :: JoinPoint(t, n, IsClassSearch(s.methodOptions)) in Matched(u, s, targets)
                        <==> n in Survivors(u, s, t)
    ensures JoinPoint(t, ALL_METHODS, IsClassSearch(s.methodOptions)) in NotMatched(u, s, targets)
            <==> Survivors(u, s, t) == {}
    ensures forall jp :: jp in NotMatched(u, s, targets) && jp.target == t ==>
              jp == JoinPoint(t, ALL_METHODS, IsClassSearch(s.methodOptions))
  {
  }

  /** Every join point belongs to a resolved target and carries the search's class flag. */
  lemma JoinPointsBelongToTargets(u: Universe, s: Specification, targets: set<Target>)
    ensures forall jp :: jp in Matched(u, s, targets) ==>
      jp.target in targets && jp.methodName in Survivors(u, s, jp.target)
      && jp.isClassMethod == IsClassSearch(s.methodOptions)
    ensures forall jp :: jp in NotMatched(u, s, targets) ==>
      jp.target in targets && Survivors(u, s, jp.target) == {}
      && jp == JoinPoint(jp.target, ALL_METHODS, IsClassSearch(s.methodOptions))
  {
  }

  /**
   * When a single target keeps a single member and every other target keeps
   * none, the matched set is that one join point and every other target has
   * its `all` sentinel.
   */
  lemma OneSurvivor(u: Universe, s: Specification, targets: set<Target>, t0: Target, n0: string)
    requires t0 in targets && Survivors(u, s, t0) == {n0}
    requires forall t :: t in targets && t != t0 ==> Survivors(u, s, t) == {}
    ensures Matched(u, s, targets) == {JoinPoint(t0, n0, IsClassSearch(s.methodOptions))}
    ensures NotMatched(u, s, targets)
         == set t | t in targets - {t0} :: JoinPoint(t, ALL_METHODS, IsClassSearch(s.methodOptions))
  {
    JoinPointsBelongToTargets(u, s, targets);
    TargetContribution(u, s, targets, t0);
    var c := IsClassSearch(s.methodOptions);
    forall t | t in targets - {t0}
      ensures JoinPoint(t, ALL_METHODS, c) in NotMatched(u, s, targets)
    {
      TargetContribution(u, s, targets, t);
    }
  }

  /** Proof helper: with two distinct targets, removing one leaves the sentinel of the other. */
  lemma OtherSentinel(t0: Target, t1: Target, c: bool)
    requires t0 != t1
    ensures (set t | t in {t0, t1} - {t0} :: JoinPoint(t, ALL_METHODS, c)) == {JoinPoint(t1, ALL_METHODS, c)}
  {
    assert {t0, t1} - {t0} == {t1};
  }

  /** Every resolved target shows up in one of the two sets, so a pointcut is empty exactly when nothing resolved. */
  lemma EmptyIffNoTargets(u: Universe, s: Specification)
    ensures Resolve(u, s).IsEmpty() <==>
      Resolve(u, s).candidateTypes.matched == {} && Resolve(u, s).candidateObjects.matched == {}
  {
    var p := Resolve(u, s);
    var targets := Targets(p.candidateTypes, p.candidateObjects);
    if targets != {} {
      var t :| t in targets;
      TargetContribution(u, s, targets, t);
      if Survivors(u, s, t) == {} {
        assert JoinPoint(t, ALL_METHODS, IsClassSearch(s.methodOptions)) in p.joinPointsNotMatched;
      } else {
        var n :| n in Survivors(u, s, t);
        assert JoinPoint(t, n, IsClassSearch(s.methodOptions)) in p.joinPointsMatched;
      }
    }
    if p.candidateTypes.matched != {} {
      var t :| t in p.candidateTypes.matched;
      assert OfType(t) in targets;
    }
    if p.candidateObjects.matched != {} {
      var o :| o in p.candidateObjects.matched;
      assert OfObject(o) in targets;
    }
  }

  predicate NothingGiven<T>(arg: Option<seq<T>>) {
    arg.None? || arg.value == []
  }

  /** A pointcut given no types and no objects (absent, `nil` or `[]`) is built and is empty. */
  lemma NoTargetsIsEmpty(u: Universe, c: Config)
    requires NothingGiven(c.types) && NothingGiven(c.singularType)
    requires NothingGiven(c.objects) && NothingGiven(c.singularObject)
    requires ValidSpecification(Normalize(c))
    ensures New(u, c).Success? && New(u, c).value.IsEmpty()
  {
    var s := Normalize(c);
    assert s.types == {} && s.objects == {};
    assert UnresolvableObjectNames(u, s) == {};
    EmptyIffNoTargets(u, s);
  }

  /** `Pointcut.new` with no arguments is empty. */
  lemma NoOptionsIsEmpty(u: Universe)
    ensures New(u, NO_OPTIONS).Success? && New(u, NO_OPTIONS).value.IsEmpty()
  {
    NoTargetsIsEmpty(u, NO_OPTIONS);
  }

  // Results depend on the resolved targets and on the filter only

  /** Two specifications that search alike, select alike and resolve to the same targets give the same join points. */
  lemma SameFilterSameJoinPoints(u: Universe, s1: Specification, s2: Specification, targets: set<Target>)
    requires s1.methodOptions == s2.methodOptions
    requires forall n :: Selected(u, s1, n) <==> Selected(u, s2, n)
    ensures Matched(u, s1, targets) == Matched(u, s2, targets)
    ensures NotMatched(u, s1, targets) == NotMatched(u, s2, targets)
  {
    forall t | t in targets ensures Survivors(u, s1, t) == Survivors(u, s2, t) {
    }
  }

  /**
   * Giving the same known types as live types, as names, or as a regular
   * expression matching exactly their names yields the same join points.
   */
  lemma TypeSpellingsGiveSameJoinPoints(u: Universe, s: Specification, names: set<string>, r: Regex)
    requires names <= u.knownTypes
    requires forall t :: t in u.knownTypes ==> (u.matches(r.source, t) <==> t in names)
    ensures Resolve(u, s.(types := AsRefs(names))).joinPointsMatched
         == Resolve(u, s.(types := AsNames(names))).joinPointsMatched
         == Resolve(u, s.(types := {TypePattern(r)})).joinPointsMatched
    ensures Resolve(u, s.(types := AsRefs(names))).joinPointsNotMatched
         == Resolve(u, s.(types := AsNames(names))).joinPointsNotMatched
         == Resolve(u, s.(types := {TypePattern(r)})).joinPointsNotMatched
  {
    TypeSpellingsResolveAlike(u, names, r);
    var s1, s2, s3 := s.(types := AsRefs(names)), s.(types := AsNames(names)), s.(types := {TypePattern(r)});
    var targets := Targets(ResolveTypes(u, s1.types), ResolveObjects(s.objects));
    assert Targets(ResolveTypes(u, s2.types), ResolveObjects(s.objects)) == targets;
    assert Targets(ResolveTypes(u, s3.types), ResolveObjects(s.objects)) == targets;
    SameFilterSameJoinPoints(u, s1, s2, targets);
    SameFilterSameJoinPoints(u, s1, s3, targets);
  }

  /** An unknown type name is only reported among the unmatched candidate types and yields no join point. */
  lemma UnknownTypeNameYieldsNothing(u: Universe, s: Specification, n: string)
    requires n !in u.knownTypes
    requires s.types == {TypeName(n)} && s.objects == {}
    ensures Resolve(u, s).candidateTypes == CandidateTypes({}, {n})
    ensures Resolve(u, s).IsEmpty()
  {
    UnknownTypeName(u, n);
    EmptyIffNoTargets(u, s);
  }

  /** Searching class methods of an object finds none: the object gets a class-scoped `all` sentinel. */
  lemma ClassSearchOnObject(u: Universe, s: Specification, o: ObjectId)
    requires ClassMethods in s.methodOptions && SingletonMethods !in s.methodOptions
    requires ObjectRef(o) in s.objects
    ensures JoinPoint(OfObject(o), ALL_METHODS, true) in Resolve(u, s).joinPointsNotMatched
    ensures forall jp :: jp in Resolve(u, s).joinPointsMatched ==> jp.target != OfObject(o)
  {
    var p := Resolve(u, s);
    var targets := Targets(p.candidateTypes, p.candidateObjects);
    assert OfObject(o) in targets;
    assert Survivors(u, s, OfObject(o)) == {};
    TargetContribution(u, s, targets, OfObject(o));
    JoinPointsBelongToTargets(u, s, targets);
  }

  /**
   * With `methods => :all`, a member the target defines itself, in the
   * searched scope and with one of the requested visibilities, is matched.
   */
  lemma RequestedVisibilityMatched(u: Universe, s: Specification, targets: set<Target>, t: Target, m: Member)
    requires All in s.methods && t in targets
    requires m in Entries(u, t) && m.owner == Own
    requires m.scope == SearchFor(s.methodOptions).scope
    requires m.visibility in RequestedVisibilities(s.methodOptions)
    requires !(t.OfObject? && m.scope == ClassScope)
    ensures JoinPoint(t, m.name, IsClassSearch(s.methodOptions)) in Matched(u, s, targets)
  {
    assert MethodMatcherSelects(u, All, m.name);
    assert m.name in Survivors(u, s, t);
  }

  /**
   * An exact method name keeps that name alone, whatever characters it ends
   * with, and only when the target's pool has it.
   */
  lemma ExactNameSelectsOnlyIt(u: Universe, s: Specification, t: Target, x: string)
    requires s.methods == {Named(x)} && s.attributes == {}
    ensures Survivors(u, s, t) == if x in FindMethods(u, t, SearchFor(s.methodOptions)) then {x} else {}
  {
    assert forall n :: Selected(u, s, n) <==> n == x;
  }

  // Attribute options

  /** The writer half of `NamedAttributesSelectTheirAccessors`. */
  lemma NamedAttributesSelectWriters(u: Universe, names: set<string>, n: string)
    requires forall x :: x in names ==> !IsWriterName(StripSigil(x))
    requires IsWriterName(n)
    ensures AttributeSelects(u, set x | x in names :: Named(x), {}, n) <==> n in MakeAttributeMethodNames(names)
  {
    var attrs := set x | x in names :: Named(x);
    MakeAttributeMethodNamesSpec(names, n);
    if AttributeSelects(u, attrs, {}, n) {
      var m :| m in attrs && AttributeMatcherSelects(u, m, ReaderOf(n));
      ReaderWriterRoundTrip(n);
      assert n == WriterName(StripSigil(m.name));
    }
    if n in MakeAttributeMethodNames(names) {
      var x :| x in names && (n == StripSigil(x) || n == WriterName(StripSigil(x)));
      WriterReaderRoundTrip(StripSigil(x));
      assert Named(x) in attrs && AttributeMatcherSelects(u, Named(x), ReaderOf(n));
    }
  }

  /** The reader half of `NamedAttributesSelectTheirAccessors`. */
  lemma NamedAttributesSelectReaders(u: Universe, names: set<string>, n: string)
    requires !IsWriterName(n)
    ensures AttributeSelects(u, set x | x in names :: Named(x), {}, n) <==> n in MakeAttributeMethodNames(names)
  {
    var attrs := set x | x in names :: Named(x);
    MakeAttributeMethodNamesSpec(names, n);
    if n in MakeAttributeMethodNames(names) {
      var x :| x in names && (n == StripSigil(x) || n == WriterName(StripSigil(x)));
      WriterReaderRoundTrip(StripSigil(x));
      assert Named(x) in attrs && AttributeMatcherSelects(u, Named(x), n);
    }
  }

  /** For exact attribute names, the filter selects exactly the names `make_attribute_method_names` produces. */
  lemma NamedAttributesSelectTheirAccessors(u: Universe, names: set<string>, n: string)
    requires forall x :: x in names ==> !IsWriterName(StripSigil(x))
    ensures AttributeSelects(u, set x | x in names :: Named(x), {}, n) <==> n in MakeAttributeMethodNames(names)
  {
    if IsWriterName(n) {
      NamedAttributesSelectWriters(u, names, n);
    } else {
      NamedAttributesSelectReaders(u, names, n);
    }
  }

  /**
   * `[:readers]` and `[:writers]` together select what the default (or both
   * options) selects; neither selects a name the other selects; readers are
   * never `=` names and writers always are.
   */
  lemma AttributeOptionsPartition(u: Universe, attrs: set<Matcher>, n: string)
    ensures AttributeSelects(u, attrs, {}, n) <==>
      AttributeSelects(u, attrs, {Readers}, n) || AttributeSelects(u, attrs, {Writers}, n)
    ensures AttributeSelects(u, attrs, {Readers, Writers}, n) <==> AttributeSelects(u, attrs, {}, n)
    ensures !(AttributeSelects(u, attrs, {Readers}, n) && AttributeSelects(u, attrs, {Writers}, n))
    ensures AttributeSelects(u, attrs, {Readers}, n) ==> !IsWriterName(n)
    ensures AttributeSelects(u, attrs, {Writers}, n) ==> IsWriterName(n)
  {
    AccessorChoice({});
  }

  /** The partition carried to the matched join points of a pointcut that names attributes only. */
  lemma AttributeOptionsPartitionJoinPoints(u: Universe, s: Specification, targets: set<Target>)
    requires s.methods == {}
    ensures Matched(u, s.(attributeOptions := {Readers}), targets) + Matched(u, s.(attributeOptions := {Writers}), targets)
         == Matched(u, s.(attributeOptions := {}), targets)
         == Matched(u, s.(attributeOptions := {Readers, Writers}), targets)
    ensures forall jp :: jp in Matched(u, s.(attributeOptions := {Readers}), targets) ==> !IsWriterName(jp.methodName)
    ensures forall jp :: jp in Matched(u, s.(attributeOptions := {Writers}), targets) ==> IsWriterName(jp.methodName)
  {
    var sR, sW := s.(attributeOptions := {Readers}), s.(attributeOptions := {Writers});
    var s0, sRW := s.(attributeOptions := {}), s.(attributeOptions := {Readers, Writers});
    forall n ensures Selected(u, s0, n) <==> Selected(u, sR, n) || Selected(u, sW, n)
      ensures Selected(u, sRW, n) <==> Selected(u, s0, n)
      ensures Selected(u, sR, n) ==> !IsWriterName(n)
      ensures Selected(u, sW, n) ==> IsWriterName(n)
    {
      AttributeOptionsPartition(u, s.attributes, n);
    }
    SameFilterSameJoinPoints(u, sRW, s0, targets);
    var cls := IsClassSearch(s.methodOptions);
    forall jp | jp in Matched(u, s0, targets)
      ensures jp in Matched(u, sR, targets) + Matched(u, sW, targets)
    {
      var t, n :| t in targets && n in Survivors(u, s0, t) && jp == JoinPoint(t, n, cls);
      if Selected(u, sR, n) {
        assert n in Survivors(u, sR, t);
      } else {
        assert n in Survivors(u, sW, t);
      }
    }
    forall jp | jp in Matched(u, sR, targets) + Matched(u, sW, targets)
      ensures jp in Matched(u, s0, targets)
    {
      if jp in Matched(u, sR, targets) {
        var t, n :| t in targets && n in Survivors(u, sR, t) && jp == JoinPoint(t, n, cls);
        assert n in Survivors(u, s0, t);
      } else {
        var t, n :| t in targets && n in Survivors(u, sW, t) && jp == JoinPoint(t, n, cls);
        assert n in Survivors(u, s0, t);
      }
    }
    JoinPointsBelongToTargets(u, sR, targets);
    JoinPointsBelongToTargets(u, sW, targets);
  }

  /** Two attribute patterns that normalise alike give the same join points. */
  lemma SamePatternSameJoinPoints(u: Universe, s: Specification, src1: string, src2: string, targets: set<Target>)
    requires NormalizeAttributePattern(src1) == NormalizeAttributePattern(src2)
    ensures Matched(u, s.(attributes := {Matching(Regex(src1))}), targets)
         == Matched(u, s.(attributes := {Matching(Regex(src2))}), targets)
    ensures NotMatched(u, s.(attributes := {Matching(Regex(src1))}), targets)
         == NotMatched(u, s.(attributes := {Matching(Regex(src2))}), targets)
  {
    var s1, s2 := s.(attributes := {Matching(Regex(src1))}), s.(attributes := {Matching(Regex(src2))});
    forall a ensures SomeAttributeNames(u, s1.attributes, a) <==> SomeAttributeNames(u, s2.attributes, a) {
      assert AttributeMatcherSelects(u, Matching(Regex(src1)), a) <==> AttributeMatcherSelects(u, Matching(Regex(src2)), a);
    }
    SameFilterSameJoinPoints(u, s1, s2, targets);
  }

  /** A trailing `=` in an attribute pattern leaves the join points unchanged. */
  lemma AttributePatternSpellingsAgree(u: Universe, s: Specification, src: string, targets: set<Target>)
    requires !IsWriterName(src)
    ensures Matched(u, s.(attributes := {Matching(Regex(src + "="))}), targets)
         == Matched(u, s.(attributes := {Matching(Regex(src))}), targets)
    ensures NotMatched(u, s.(attributes := {Matching(Regex(src + "="))}), targets)
         == NotMatched(u, s.(attributes := {Matching(Regex(src))}), targets)
  {
    TrailingEqualsIgnored(src);
    SamePatternSameJoinPoints(u, s, src + "=", src, targets);
  }

  /**
   * A leading `@` or `:` in an attribute pattern, after a `^` anchor or not,
   * leaves the join points unchanged.
   */
  lemma AttributePatternSigilsAgree(u: Universe, s: Specification, body: string, targets: set<Target>)
    requires !HasSigil(body) && (|body| == 0 || body[0] != '^')
    ensures Matched(u, s.(attributes := {Matching(Regex("@" + body))}), targets)
         == Matched(u, s.(attributes := {Matching(Regex(":" + body))}), targets)
         == Matched(u, s.(attributes := {Matching(Regex(body))}), targets)
    ensures Matched(u, s.(attributes := {Matching(Regex("^@" + body))}), targets)
         == Matched(u, s.(attributes := {Matching(Regex("^:" + body))}), targets)
         == Matched(u, s.(attributes := {Matching(Regex("^" + body))}), targets)
  {
    PatternSigilIgnored(body);
    SamePatternSameJoinPoints(u, s, "@" + body, body, targets);
    SamePatternSameJoinPoints(u, s, ":" + body, body, targets);
    SamePatternSameJoinPoints(u, s, "^@" + body, "^" + body, targets);
    SamePatternSameJoinPoints(u, s, "^:" + body, "^" + body, targets);
  }

  // Validation

  /** `attributes => :all` is rejected, whether the targets are types or objects. */
  lemma AllAttributesRejected(u: Universe, c: Config)
    requires c.attributes == Some([All]) || c.singularAttribute == Some([All])
    ensures New(u, c) == Failure(InvalidOptions)
  {
    assert All in Normalize(c).attributes;
  }

  /** `:singleton` together with `:class`, `:public`, `:protected` or `:private` is rejected. */
  lemma SingletonConflictRejected(u: Universe, c: Config, other: MethodOption)
    requires other in {ClassMethods, PublicMethods, ProtectedMethods, PrivateMethods}
    requires SingletonMethods in c.methodOptions && other in c.methodOptions
    ensures New(u, c) == Failure(InvalidOptions)
  {
    assert SingletonConflict(Normalize(c).methodOptions);
  }

  /**
   * With a method matcher other than the default, a string or symbol given
   * as an object that names no known type makes construction fail with a
   * name-resolution failure.
   */
  lemma UnknownObjectNameRaises(u: Universe, c: Config, n: string)
    requires ValidSpecification(Normalize(c))
    requires Normalize(c).methods != {All}
    requires TextValue(n) in Normalize(c).objects && n !in u.knownTypes
    ensures New(u, c) == Failure(NameResolutionFailure)
  {
    assert n in UnresolvableObjectNames(u, Normalize(c));
  }

  /** `:object => "mystring", :methods => :capitalize` fails to resolve when no type is named `mystring`. */
  lemma StringObjectRaises(u: Universe)
    requires "mystring" !in u.knownTypes
    ensures New(u, NO_OPTIONS.(singularObject := Some([TextValue("mystring")]),
                               methods := Some([Named("capitalize")])))
         == Failure(NameResolutionFailure)
  {
    var c := NO_OPTIONS.(singularObject := Some([TextValue("mystring")]), methods := Some([Named("capitalize")]));
    assert TextValue("mystring") in Normalize(c).objects;
    assert Named("capitalize") in Normalize(c).methods;
    UnknownObjectNameRaises(u, c, "mystring");
  }

  /**
   * Construction succeeds, with the normalised specification, when the
   * options are valid and either the methods are the default `all` (string
   * and symbol objects are then never looked up) or every string or symbol
   * given as an object names a known type.
   */
  lemma ConstructionSucceeds(u: Universe, c: Config)
    requires ValidSpecification(Normalize(c))
    requires Normalize(c).methods == {All}
          || forall os :: os in Normalize(c).objects && os.TextValue? ==> os.text in u.knownTypes
    ensures New(u, c).Success?
    ensures New(u, c).value.specification == Normalize(c)
  {
  }

  /**
   * `:objects => objs, :object => "1234"` with the default methods builds a
   * pointcut whose objects are the given ones plus the string, whatever
   * types are known.
   */
  lemma StringObjectWithDefaultMethods(u: Universe, objs: seq<ObjectSpec>)
    ensures New(u, NO_OPTIONS.(objects := Some(objs), singularObject := Some([TextValue("1234")]))).Success?
    ensures New(u, NO_OPTIONS.(objects := Some(objs), singularObject := Some([TextValue("1234")]))).value.specification
         == Specification({}, (set os | os in objs) + {TextValue("1234")}, {All}, {}, {}, {})
  {
    var c := NO_OPTIONS.(objects := Some(objs), singularObject := Some([TextValue("1234")]));
    assert Normalize(c).methods == {All};
    assert Values(c.singularObject) == {TextValue("1234")};
    ConstructionSucceeds(u, c);
  }

  // Equality

  lemma EqualsIsEquivalence(p: Pointcut, q: Pointcut, r: Pointcut)
    ensures p.Equals(p)
    ensures p.Equals(q) ==> q.Equals(p)
    ensures p.Equals(q) && q.Equals(r) ==> p.Equals(r)
  {
  }

  /** Pointcuts built from options with the same normal form are equal. */
  lemma SameSpecificationEqual(u: Universe, c1: Config, c2: Config)
    requires Normalize(c1) == Normalize(c2)
    ensures New(u, c1).Success? <==> New(u, c2).Success?
    ensures New(u, c1).Success? ==> New(u, c1).value.Equals(New(u, c2).value)
  {
  }

  /** Pointcuts whose specifications differ (types, objects, methods or attributes) are not equal. */
  lemma DifferentSpecificationsUnequal(u: Universe, c1: Config, c2: Config)
    requires Normalize(c1) != Normalize(c2)
    requires New(u, c1).Success? && New(u, c2).Success?
    ensures !New(u, c1).value.Equals(New(u, c2).value)
  {
  }

  /** A specification naming one object and no type has that object as its only target. */
  lemma SingleObjectTarget(u: Universe, s: Specification, o: ObjectId)
    requires s.types == {} && s.objects == {ObjectRef(o)}
    ensures Targets(ResolveTypes(u, s.types), ResolveObjects(s.objects)) == {OfObject(o)}
  {
    assert ResolveTypes(u, s.types).matched == {};
    assert ResolveObjects(s.objects).matched == {o};
  }

  /**
   * Two distinct objects, however alike, give pointcuts with different join
   * points for the same filter, even when no method matches.
   */
  lemma DistinctObjectsDiffer(u: Universe, s: Specification, o1: ObjectId, o2: ObjectId)
    requires o1 != o2 && s.types == {}
    ensures Resolve(u, s.(objects := {ObjectRef(o1)})).joinPointsMatched
              != Resolve(u, s.(objects := {ObjectRef(o2)})).joinPointsMatched
         || Resolve(u, s.(objects := {ObjectRef(o1)})).joinPointsNotMatched
              != Resolve(u, s.(objects := {ObjectRef(o2)})).joinPointsNotMatched
    ensures !Resolve(u, s.(objects := {ObjectRef(o1)})).Equals(Resolve(u, s.(objects := {ObjectRef(o2)})))
  {
    var s1, s2 := s.(objects := {ObjectRef(o1)}), s.(objects := {ObjectRef(o2)});
    SingleObjectTarget(u, s1, o1);
    SingleObjectTarget(u, s2, o2);
    var t1s, t2s := {OfObject(o1)}, {OfObject(o2)};
    var m1, m2 := Matched(u, s1, t1s), Matched(u, s2, t2s);
    var n1, n2 := NotMatched(u, s1, t1s), NotMatched(u, s2, t2s);
    TargetContribution(u, s1, t1s, OfObject(o1));
    JoinPointsBelongToTargets(u, s2, t2s);
    var cls := IsClassSearch(s.methodOptions);
    if Survivors(u, s1, OfObject(o1)) == {} {
      assert JoinPoint(OfObject(o1), ALL_METHODS, cls) in n1;
      assert JoinPoint(OfObject(o1), ALL_METHODS, cls) !in n2;
    } else {
      var n :| n in Survivors(u, s1, OfObject(o1));
      assert JoinPoint(OfObject(o1), n, cls) in m1;
      assert JoinPoint(OfObject(o1), n, cls) !in m2;
    }
  }
}
