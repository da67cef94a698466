/**
 * The reflective universe the pointcut engine resolves against, and the
 * method finder that enumerates the member pool of one target.
 * The universe is explicit: the names of all known types, the members of
 * every target, and an opaque regular-expression matcher.
 */
module MethodFinder {
  import opened JoinPoints

  datatype Visibility = Public | Protected | Private

  /** Instance methods, class methods, or methods of the target's own singleton. */
  datatype Scope = InstanceScope | ClassScope | SingletonScope

  /** Whether a member is defined on the queried target itself or inherited from an ancestor. */
  datatype Owner = Own | Ancestor(typeName: string)

  datatype Member = Member(name: string, visibility: Visibility, scope: Scope, owner: Owner)

  /** A regular expression, compared (as in Ruby) by its source text. */
  datatype Regex = Regex(source: string)

  datatype Universe = Universe(
    knownTypes: set<string>,
    members: map<Target, set<Member>>,
    /** Whether the regular expression with the given source matches the given text. */
    matches: (string, string) -> bool)

  /** What to enumerate: visibilities, one scope, and whether inherited members are left out. */
  datatype Search = Search(visibilities: set<Visibility>, scope: Scope, suppressAncestors: bool)

  function Entries(u: Universe, t: Target): set<Member> {
    if t in u.members then u.members[t] else {}
  }

  predicate Qualifies(m: Member, s: Search) {
    && m.scope == s.scope
    && m.visibility in s.visibilities
    && (!s.suppressAncestors || m.owner == Own)
  }

  /**
   * The member pool of a target: the names of its members in the searched
   * scope, with one of the searched visibilities, defined on the target itself
   * when ancestors are suppressed. An object has no class methods.
   */
  function FindMethods(u: Universe, t: Target, s: Search): (names: set<string>)
    ensures t.OfObject? && s.scope == ClassScope ==> names == {}
    ensures forall n :: n in names ==>
      exists m :: m in Entries(u, t) && m.name == n && m.scope == s.scope && m.visibility in s.visibilities
                  && (!s.suppressAncestors || m.owner == Own)
    ensures !(t.OfObject? && s.scope == ClassScope) ==>
      forall m :: (m in Entries(u, t) && m.scope == s.scope && m.visibility in s.visibilities
                   && (!s.suppressAncestors || m.owner == Own)) ==> m.name in names
  {
    if t.OfObject? && s.scope == ClassScope then {}
    else set m | m in Entries(u, t) && Qualifies(m, s) :: m.name
  }

  /** Suppressing ancestor methods can only shrink the pool. */
  lemma SuppressionShrinksPool(u: Universe, t: Target, vs: set<Visibility>, scope: Scope)
    ensures FindMethods(u, t, Search(vs, scope, true)) <= FindMethods(u, t, Search(vs, scope, false))
  {
    var strict := Search(vs, scope, true);
    var loose := Search(vs, scope, false);
    forall n | n in FindMethods(u, t, strict) ensures n in FindMethods(u, t, loose) {
      var m :| m in Entries(u, t) && Qualifies(m, strict) && m.name == n;
      assert Qualifies(m, loose);
    }
  }

  /** A member inherited from an ancestor is found exactly when ancestors are not suppressed. */
  lemma InheritedMemberNeedsAncestors(u: Universe, t: Target, s: Search, m: Member)
    requires m in Entries(u, t) && m.owner.Ancestor? && m.scope == s.scope && m.visibility in s.visibilities
    requires !(t.OfObject? && s.scope == ClassScope)
    requires forall m' :: m' in Entries(u, t) && m'.name == m.name ==> m'.owner.Ancestor?
    ensures m.name in FindMethods(u, t, s) <==> !s.suppressAncestors
  {
    if !s.suppressAncestors {
      assert Qualifies(m, s);
    }
  }

  /** The pool for several visibilities is the union of the pools for each. */
  lemma PoolUnionOfVisibilities(u: Universe, t: Target, vs1: set<Visibility>, vs2: set<Visibility>,
                                scope: Scope, suppress: bool)
    ensures FindMethods(u, t, Search(vs1 + vs2, scope, suppress))
         == FindMethods(u, t, Search(vs1, scope, suppress)) + FindMethods(u, t, Search(vs2, scope, suppress))
  {
    var both := Search(vs1 + vs2, scope, suppress);
    var s1 := Search(vs1, scope, suppress);
    var s2 := Search(vs2, scope, suppress);
    forall n | n in FindMethods(u, t, both)
      ensures n in FindMethods(u, t, s1) + FindMethods(u, t, s2)
    {
      var m :| m in Entries(u, t) && Qualifies(m, both) && m.name == n;
      if m.visibility in vs1 { assert Qualifies(m, s1); } else { assert Qualifies(m, s2); }
    }
    forall n | n in FindMethods(u, t, s1) + FindMethods(u, t, s2)
      ensures n in FindMethods(u, t, both)
    {
      if n in FindMethods(u, t, s1) {
        var m :| m in Entries(u, t) && Qualifies(m, s1) && m.name == n;
        assert Qualifies(m, both);
      } else {
        var m :| m in Entries(u, t) && Qualifies(m, s2) && m.name == n;
        assert Qualifies(m, both);
      }
    }
  }
}
