/**
 * The candidate resolver: turns the `types` and `objects` of a
 * specification into live targets, separating what resolved from what did not.
 */
module CandidateResolver {
  import opened JoinPoints
  import opened MethodFinder
  import opened Specifications

  /** `candidate_types`: the resolved types (by name) and the type names that resolved to nothing. */
  datatype CandidateTypes = CandidateTypes(matched: set<string>, notMatched: set<string>)

  /** `candidate_objects`: the objects taken as targets; objects never fail to resolve. */
  datatype CandidateObjects = CandidateObjects(matched: set<ObjectId>, notMatched: set<ObjectId>)

  /** The live types one entry of `types` stands for. */
  function TypesOf(u: Universe, ts: TypeSpec): set<string> {
    match ts
    case TypeRef(t) => {t}
    case TypeName(n) => if n in u.knownTypes then {n} else {}
    case TypePattern(r) => set t | t in u.knownTypes && u.matches(r.source, t)
  }

  /**
   * Live types are taken as they are, names are looked up, and a pattern
   * picks every known type whose name it matches. Only names that are not
   * known types are reported as not matched; a pattern never is.
   */
  function ResolveTypes(u: Universe, types: set<TypeSpec>): (r: CandidateTypes)
    ensures forall n :: n in r.notMatched <==> TypeName(n) in types && n !in u.knownTypes
    ensures forall t :: t in r.matched ==> t in u.knownTypes || TypeRef(t) in types
    ensures forall t :: TypeRef(t) in types ==> t in r.matched
    ensures forall n :: TypeName(n) in types && n in u.knownTypes ==> n in r.matched
    ensures forall p, t :: TypePattern(p) in types && t in u.knownTypes && u.matches(p.source, t) ==> t in r.matched
    ensures forall t :: t in r.matched ==>
      TypeRef(t) in types
      || (t in u.knownTypes
          && (TypeName(t) in types || exists p :: TypePattern(p) in types && u.matches(p.source, t)))
  {
    ResolvedNamesCover(u, types);
    CandidateTypes(
      ResolvedNames(u, types),
      set ts | ts in types && ts.TypeName? && ts.name !in u.knownTypes :: ts.name)
  }

  /** The live types that some entry of `types` stands for. */
  function ResolvedNames(u: Universe, types: set<TypeSpec>): set<string> {
    set ts, t | ts in types && t in TypesOf(u, ts) :: t
  }

  /** Each kind of entry contributes every live type it stands for. */
  lemma ResolvedNamesCover(u: Universe, types: set<TypeSpec>)
    ensures forall t :: TypeRef(t) in types ==> t in ResolvedNames(u, types)
    ensures forall n :: TypeName(n) in types && n in u.knownTypes ==> n in ResolvedNames(u, types)
    ensures forall p, t :: TypePattern(p) in types && t in u.knownTypes && u.matches(p.source, t) ==>
      t in ResolvedNames(u, types)
  {
    forall t | TypeRef(t) in types ensures t in ResolvedNames(u, types) {
      assert t in TypesOf(u, TypeRef(t));
    }
    forall n | TypeName(n) in types && n in u.knownTypes ensures n in ResolvedNames(u, types) {
      assert n in TypesOf(u, TypeName(n));
    }
    forall p, t | TypePattern(p) in types && t in u.knownTypes && u.matches(p.source, t)
      ensures t in ResolvedNames(u, types)
    {
      assert t in TypesOf(u, TypePattern(p));
    }
  }

  /** Every live object given is a candidate; string and symbol values are not objects here. */
  function ResolveObjects(objects: set<ObjectSpec>): (r: CandidateObjects)
    ensures forall o :: o in r.matched <==> ObjectRef(o) in objects
    ensures r.notMatched == {}
  {
    CandidateObjects(set os | os in objects && os.ObjectRef? :: os.id, {})
  }

  /**
   * The string or symbol values given as objects that are taken for type
   * names and name no known type. They are looked up only when a method
   * other than the default `all` is asked for.
   */
  function UnresolvableObjectNames(u: Universe, s: Specification): (names: set<string>)
    ensures s.methods == {All} ==> names == {}
    ensures forall n :: n in names ==> TextValue(n) in s.objects && n !in u.knownTypes
    ensures s.methods != {All} ==>
      forall os :: os in s.objects && os.TextValue? && os.text !in u.knownTypes ==> os.text in names
  {
    if s.methods == {All} then {}
    else set os | os in s.objects && os.TextValue? && os.text !in u.knownTypes :: os.text
  }

  function AsRefs(names: set<string>): set<TypeSpec> {
    set n | n in names :: TypeRef(n)
  }

  function AsNames(names: set<string>): set<TypeSpec> {
    set n | n in names :: TypeName(n)
  }

  /** Known types given as live types or as names resolve to themselves, with nothing unmatched. */
  lemma KnownTypesResolve(u: Universe, names: set<string>)
    requires names <= u.knownTypes
    ensures ResolveTypes(u, AsRefs(names)) == CandidateTypes(names, {})
    ensures ResolveTypes(u, AsNames(names)) == CandidateTypes(names, {})
  {
  }

  /**
   * Giving known types as live types, as names, or as a pattern matching
   * exactly their names resolves to the same candidates, with nothing unmatched.
   */
  lemma TypeSpellingsResolveAlike(u: Universe, names: set<string>, r: Regex)
    requires names <= u.knownTypes
    requires forall t :: t in u.knownTypes ==> (u.matches(r.source, t) <==> t in names)
    ensures ResolveTypes(u, AsRefs(names)) == CandidateTypes(names, {})
    ensures ResolveTypes(u, AsNames(names)) == CandidateTypes(names, {})
    ensures ResolveTypes(u, {TypePattern(r)}) == CandidateTypes(names, {})
  {
    KnownTypesResolve(u, names);
    assert ResolveTypes(u, {TypePattern(r)}).notMatched == {};
  }

  /** An unknown type name resolves to nothing and is reported as not matched. */
  lemma UnknownTypeName(u: Universe, n: string)
    requires n !in u.knownTypes
    ensures ResolveTypes(u, {TypeName(n)}) == CandidateTypes({}, {n})
  {
    assert TypesOf(u, TypeName(n)) == {};
  }
}
