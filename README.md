# Aquarium pointcut resolution, modelled in Dafny

This project models the pointcut resolution engine of Aquarium, a Ruby
aspect-oriented programming library. A `Pointcut` is constructed from
options: `types`/`type`, `objects`/`object`, `methods`/`method`,
`method_options`, `attributes`/`attribute` and `attribute_options`. It then
does four things:
- it folds the options into a canonical *specification* of sets;
- it rejects invalid option combinations;
- it resolves the types and objects into candidate targets;
- for every target, it keeps the members of the target's method pool that
  the method and attribute matchers select.

Each kept member becomes a matched *join point* `(target, method name,
is_class_method)`. A target that keeps nothing is recorded by exactly one
not-matched join point whose method name is `all`.

The behaviour modelled is the one the RSpec suite
`aquarium/spec/aquarium/aspects/pointcut_spec.rb` pins down. The
implementation file `aquarium/aspects/pointcut.rb` is not part of this
model, so every definition follows an observable assertion of that suite.

Ruby reflection is replaced by an explicit `Universe`, which has three parts:
- the names of the known types;
- for every target, a registry of members, each with a name, a visibility,
  a scope (instance, class or singleton) and an owner (the target itself or
  an ancestor);
- an opaque regular-expression oracle `matches(source, subject)`.

Types are compared by name. Objects are compared by identity (`ObjectId`).
Regular expressions are compared by their source text. Ruby's `Regexp#==` also compares the option flags (`/i`, `/m`, `/x`), which this model does not have.

Files:
- `wrappers.dfy` holds `Option` and `Result`.
- `join_points.dfy` holds targets and join points.
- `attribute_names.dfy` holds `make_attribute_method_names`, attribute
  patterns and `attribute_options`.
- `method_finder.dfy` holds the universe and the member pool of one target.
- `specification.dfy` holds option normalisation, validation and the search
  a set of method options asks for.
- `candidates.dfy` holds `candidate_types` and `candidate_objects`.
- `pointcut.dfy` holds the name filter, join-point construction,
  `Pointcut.new`, `empty?` and `==`/`eql?`.
- `fixtures.dfy` holds the suite's example classes as registry data, and the
  concrete cases proved about them.
- `funky_fixtures.dfy` holds `ClassWithFunkyMethodNames`, whose method
  names end in `?`, `!` and `=`.
- `singleton_fixtures.dfy` holds the singleton-method classes and objects.

Behaviour the model resolves from the suite:
- **Keys of `candidate_types`.** The matched keys of `candidate_types` are
  the resolved types themselves, even when the types were given by name.
  The suite compares them with the type objects
  (`pointcut_spec.rb:699-703`).
- **String and symbol objects.** With a method matcher (`:methods =>
  :capitalize`), a string or symbol given as an object is taken for a type
  name, and construction raises when no such type exists
  (`pointcut_spec.rb:150-158`). With the default `methods => :all`, such a
  value is accepted and kept in the specification
  (`pointcut_spec.rb:756-763`). The model raises `NameResolutionFailure`
  exactly when the methods are not the default `{all}` and the text names no
  known type. Otherwise the value contributes no target.

## Model

| member | source | states |
|---|---|---|
| AttributeNames.MakeAttributeMethodNames | aquarium/spec/aquarium/aspects/pointcut_spec.rb:794-810 | `make_attribute_method_names`: each token yields its sigil-stripped reader and writer and nothing else (proved in MakeAttributeMethodNamesSpec and MakeAttributeMethodNamesIgnoresSigil) |
| AttributeNames.NormalizeAttributePattern | aquarium/spec/aquarium/aspects/pointcut_spec.rb:320-438 | the pattern an attribute pattern matches reader names with; sigils and a trailing `=` play no part (TrailingEqualsIgnored, PatternSigilIgnored) |
| AttributeNames.WantsReaders | aquarium/spec/aquarium/aspects/pointcut_spec.rb:360-387 | readers are selected unless only writers are asked for (AccessorChoice) |
| AttributeNames.WantsWriters | aquarium/spec/aquarium/aspects/pointcut_spec.rb:375-387 | writers are selected unless only readers are asked for (AccessorChoice) |
| Specifications.Normalize | aquarium/spec/aquarium/aspects/pointcut_spec.rb:742-791 | the `specification` of a pointcut (NormalizeUnionsAliases, NormalizeDefaultsMethods, NormalizeKeepsOptions, NoOptionsSpecification, NilTypesAndObjectsIgnored) |
| Specifications.ValidSpecification | aquarium/spec/aquarium/aspects/pointcut_spec.rb:505-553 | no `attributes => :all` and no singleton conflict (New, AllAttributesRejected, SingletonConflictRejected) |
| Pointcuts.AttributeSelects | aquarium/spec/aquarium/aspects/pointcut_spec.rb:345-438 | the expanded attribute matchers under `attribute_options` (NamedAttributesSelectTheirAccessors, AttributeOptionsPartition) |
| Pointcuts.Selected | aquarium/spec/aquarium/aspects/pointcut_spec.rb:273-318 | a name passes when a method matcher or an attribute matcher selects it (ExactNameSelectsOnlyIt, SameFilterSameJoinPoints) |
| Pointcuts.Survivors | aquarium/spec/aquarium/aspects/pointcut_spec.rb:108-254 | the names of a target's pool that pass the filter (TargetContribution, RequestedVisibilityMatched) |
| Pointcuts.Matched | aquarium/spec/aquarium/aspects/pointcut_spec.rb:126-148 | one matched join point per target and surviving name (TargetContribution, JoinPointsBelongToTargets, OneSurvivor) |
| Pointcuts.NotMatched | aquarium/spec/aquarium/aspects/pointcut_spec.rb:229-254 | one `all` sentinel per target with no survivor (TargetContribution, JoinPointsBelongToTargets, ClassSearchOnObject) |
| Pointcuts.Resolve | aquarium/spec/aquarium/aspects/pointcut_spec.rb:84-148 | the candidates and join points of a valid specification (EmptyIffNoTargets, TypeSpellingsGiveSameJoinPoints, DistinctObjectsDiffer) |
| Pointcuts.Pointcut.IsEmpty | aquarium/spec/aquarium/aspects/pointcut_spec.rb:56-76 | `empty?`: no matched and no not-matched join point (EmptyIffNoTargets, NoTargetsIsEmpty) |
| Pointcuts.Pointcut.Equals | aquarium/spec/aquarium/aspects/pointcut_spec.rb:557-686 | `==`/`eql?`: same specification and same join points (EqualsIsEquivalence, SameSpecificationEqual, DifferentSpecificationsUnequal, DistinctObjectsDiffer) |
| AttributeNames.WriterReaderRoundTrip | aquarium/spec/aquarium/aspects/pointcut_spec.rb:794-810 | the writer name of an attribute `a` is `a=`, and its reader is `a` again |
| AttributeNames.ReaderWriterRoundTrip | aquarium/spec/aquarium/aspects/pointcut_spec.rb:375-387 | every `=`-suffixed writer name is the writer of the attribute obtained by dropping the `=` |
| AttributeNames.MakeAttributeMethodNamesSpec | aquarium/spec/aquarium/aspects/pointcut_spec.rb:794-810 | a name is produced iff it is the sigil-stripped reader or writer of one of the given tokens |
| AttributeNames.MakeAttributeMethodNamesIgnoresSigil | aquarium/spec/aquarium/aspects/pointcut_spec.rb:794-810 | bare, `@`-prefixed and `:`-prefixed tokens all give exactly the readers and writers of the bare names |
| AttributeNames.TrailingEqualsIgnored | aquarium/spec/aquarium/aspects/pointcut_spec.rb:390-438 | an attribute pattern ending in `=` is the same pattern as the one without it |
| AttributeNames.PatternSigilIgnored | aquarium/spec/aquarium/aspects/pointcut_spec.rb:320-337 | patterns written against `@attr` or `:attr`, anchored with `^` or not, equal the pattern written against `attr` |
| AttributeNames.AccessorChoice | aquarium/spec/aquarium/aspects/pointcut_spec.rb:345-387 | `[:readers]` wants readers only, `[:writers]` writers only, both or neither want both, and every option set wants at least one form |
| MethodFinder.FindMethods | aquarium/spec/aquarium/aspects/pointcut_spec.rb:161-254 | an object searched in class scope has an empty pool; otherwise a name is pooled iff some member of the target with that name has the searched scope, one of the searched visibilities, and (when ancestors are suppressed) is defined by the target itself |
| MethodFinder.SuppressionShrinksPool | aquarium/spec/aquarium/aspects/pointcut_spec.rb:114-118 | `:suppress_ancestor_methods` can only remove names from a pool |
| MethodFinder.InheritedMemberNeedsAncestors | aquarium/spec/aquarium/aspects/pointcut_spec.rb:480-502 | a member defined only by an ancestor is in the pool iff ancestors are not suppressed |
| MethodFinder.PoolUnionOfVisibilities | aquarium/spec/aquarium/aspects/pointcut_spec.rb:140-148 | searching several visibilities gives the union of the pools of each |
| Specifications.NormalizeUnionsAliases | aquarium/spec/aquarium/aspects/pointcut_spec.rb:749-791 | `type`/`types`, `object`/`objects`, `attribute`/`attributes` and (when given) `method`/`methods` land in one set each, holding exactly the given values |
| Specifications.NormalizeDefaultsMethods | aquarium/spec/aquarium/aspects/pointcut_spec.rb:742-791 | `methods` is `{all}` when no method and no attribute key is given, empty when only attributes are given, and `{all}` only by default or when `:all` was given |
| Specifications.NormalizeKeepsOptions | aquarium/spec/aquarium/aspects/pointcut_spec.rb:772-791 | `method_options` and `attribute_options` hold exactly the options given |
| Specifications.NoOptionsSpecification | aquarium/spec/aquarium/aspects/pointcut_spec.rb:742-747 | with no arguments the specification is all empty sets except `methods => {all}` |
| Specifications.NilTypesAndObjectsIgnored | aquarium/spec/aquarium/aspects/pointcut_spec.rb:30-53 | `types => nil`, `types => []`, `objects => nil` and `objects => []` normalise as if the key were absent |
| Specifications.RequestedVisibilities | aquarium/spec/aquarium/aspects/pointcut_spec.rb:140-215 | `:public`, `:protected` and `:private` each request exactly their own visibility |
| Specifications.SearchFor | aquarium/spec/aquarium/aspects/pointcut_spec.rb:140-254 | the search uses exactly the requested visibilities when any is requested and public otherwise, singleton scope iff `:singleton`, class scope iff `:class` without `:singleton`, and suppresses ancestors iff asked |
| CandidateResolver.ResolveTypes | aquarium/spec/aquarium/aspects/pointcut_spec.rb:693-715 | exactly the names that are no known type are not matched; every live type given, every known name given and every known type a given pattern matches is matched, and nothing else is: a matched type was given as a live type, or is known and was named or matched by a given pattern |
| CandidateResolver.ResolveObjects | aquarium/spec/aquarium/aspects/pointcut_spec.rb:723-730 | exactly the live objects given are matched, and none is not matched |
| CandidateResolver.UnresolvableObjectNames | aquarium/spec/aquarium/aspects/pointcut_spec.rb:150-158 | with the default methods nothing is looked up; otherwise exactly the string or symbol objects that name no known type are reported |
| CandidateResolver.KnownTypesResolve | aquarium/spec/aquarium/aspects/pointcut_spec.rb:693-703 | known types given as live types or as names resolve to themselves with nothing unmatched |
| CandidateResolver.TypeSpellingsResolveAlike | aquarium/spec/aquarium/aspects/pointcut_spec.rb:84-106 | live types, their names, and a pattern matching exactly their names resolve to the same candidates |
| CandidateResolver.UnknownTypeName | aquarium/spec/aquarium/aspects/pointcut_spec.rb:705-709 | an unknown type name is not matched and resolves to no type |
| Pointcuts.New | aquarium/spec/aquarium/aspects/pointcut_spec.rb:505-553 | construction fails with `InvalidOptions` iff the options are invalid, with a name-resolution failure iff they are valid, a method matcher other than the default `all` is given and a string or symbol object names no type, and otherwise is the pointcut resolved from the normalised specification |
| Pointcuts.TargetContribution | aquarium/spec/aquarium/aspects/pointcut_spec.rb:126-148 | a target has a matched join point for a name iff the name survives the filter, and its `all` sentinel iff nothing survives; it has no other not-matched join point |
| Pointcuts.JoinPointsBelongToTargets | aquarium/spec/aquarium/aspects/pointcut_spec.rb:126-148 | every join point belongs to a resolved target and carries the search's class flag; every not-matched one is that target's `all` sentinel |
| Pointcuts.OneSurvivor | aquarium/spec/aquarium/aspects/pointcut_spec.rb:126-138 | when one target keeps one name and the others keep nothing, that name is the only match and every other target has its sentinel |
| Pointcuts.EmptyIffNoTargets | aquarium/spec/aquarium/aspects/pointcut_spec.rb:56-76 | a pointcut is empty iff no type and no object resolved |
| Pointcuts.NoTargetsIsEmpty | aquarium/spec/aquarium/aspects/pointcut_spec.rb:24-54 | valid options with no types and no objects (absent, `nil` or `[]`) construct an empty pointcut |
| Pointcuts.NoOptionsIsEmpty | aquarium/spec/aquarium/aspects/pointcut_spec.rb:25-28 | `Pointcut.new` with no arguments constructs an empty pointcut |
| Pointcuts.SameFilterSameJoinPoints | aquarium/spec/aquarium/aspects/pointcut_spec.rb:345-353 | specifications with the same method options and the same filter give the same matched and not-matched join points |
| Pointcuts.TypeSpellingsGiveSameJoinPoints | aquarium/spec/aquarium/aspects/pointcut_spec.rb:84-118 | types given as live types, as names, or as a pattern matching exactly their names give the same matched and not-matched join points |
| Pointcuts.UnknownTypeNameYieldsNothing | aquarium/spec/aquarium/aspects/pointcut_spec.rb:705-709 | an unknown type name is only reported as a not-matched candidate type, and the pointcut is empty |
| Pointcuts.RequestedVisibilityMatched | aquarium/spec/aquarium/aspects/pointcut_spec.rb:166-215 | with `methods => :all`, a member the target defines itself in the searched scope with a requested visibility is matched |
| Pointcuts.ClassSearchOnObject | aquarium/spec/aquarium/aspects/pointcut_spec.rb:229-254 | a class-method search on an object matches nothing for it and records its class-scoped `all` sentinel |
| Pointcuts.ExactNameSelectsOnlyIt | aquarium/spec/aquarium/aspects/pointcut_spec.rb:454-464 | an exact method name, whatever it ends with, keeps that name alone when the pool has it and nothing otherwise |
| Pointcuts.NamedAttributesSelectTheirAccessors | aquarium/spec/aquarium/aspects/pointcut_spec.rb:794-810 | exact attribute names select a method iff `make_attribute_method_names` produces it |
| Pointcuts.AttributeOptionsPartition | aquarium/spec/aquarium/aspects/pointcut_spec.rb:345-387 | readers and writers together select what the default selects, never the same name, readers never `=` names, writers only `=` names |
| Pointcuts.AttributeOptionsPartitionJoinPoints | aquarium/spec/aquarium/aspects/pointcut_spec.rb:345-387 | the matched join points under `[:readers]` and under `[:writers]` are readers and writers respectively, and together equal those of the default and of both options |
| Pointcuts.SamePatternSameJoinPoints | aquarium/spec/aquarium/aspects/pointcut_spec.rb:320-438 | attribute patterns that normalise alike give the same matched and not-matched join points |
| Pointcuts.AttributePatternSpellingsAgree | aquarium/spec/aquarium/aspects/pointcut_spec.rb:390-438 | an attribute pattern with and without a trailing `=` gives the same matched and not-matched join points |
| Pointcuts.AttributePatternSigilsAgree | aquarium/spec/aquarium/aspects/pointcut_spec.rb:320-337 | attribute patterns written against `@attr`, `:attr` and `attr`, anchored or not, give the same matched join points |
| Pointcuts.AllAttributesRejected | aquarium/spec/aquarium/aspects/pointcut_spec.rb:505-514 | `attributes => :all` (or `attribute => :all`) fails with `InvalidOptions` |
| Pointcuts.SingletonConflictRejected | aquarium/spec/aquarium/aspects/pointcut_spec.rb:548-553 | `:singleton` with `:class`, `:public`, `:protected` or `:private` fails with `InvalidOptions` |
| Pointcuts.UnknownObjectNameRaises | aquarium/spec/aquarium/aspects/pointcut_spec.rb:150-158 | with a method matcher other than the default, a string or symbol object naming no known type makes construction fail with a name-resolution failure |
| Pointcuts.StringObjectRaises | aquarium/spec/aquarium/aspects/pointcut_spec.rb:150-153 | `:object => "mystring", :methods => :capitalize` fails with a name-resolution failure when no type is named `mystring` |
| Pointcuts.ConstructionSucceeds | aquarium/spec/aquarium/aspects/pointcut_spec.rb:742-791 | valid options construct a pointcut carrying their normalised specification when the methods are the default `all` or every string or symbol object names a known type |
| Pointcuts.StringObjectWithDefaultMethods | aquarium/spec/aquarium/aspects/pointcut_spec.rb:756-763 | `:objects => objs, :object => "1234"` with the default methods constructs a pointcut whose objects are the given ones plus the string, in any universe |
| Pointcuts.EqualsIsEquivalence | aquarium/spec/aquarium/aspects/pointcut_spec.rb:676-686 | `==`/`eql?` is reflexive, symmetric and transitive |
| Pointcuts.SameSpecificationEqual | aquarium/spec/aquarium/aspects/pointcut_spec.rb:565-569 | options with the same normal form both succeed or both fail, and when they succeed the pointcuts are equal |
| Pointcuts.DifferentSpecificationsUnequal | aquarium/spec/aquarium/aspects/pointcut_spec.rb:571-672 | pointcuts whose specifications differ (types, objects, methods or attributes) are unequal |
| Pointcuts.DistinctObjectsDiffer | aquarium/spec/aquarium/aspects/pointcut_spec.rb:589-599 | two distinct objects give different join points and unequal pointcuts for the same filter, even when no method matches |
| Fixtures.SuppressedExampleTypes | aquarium/spec/aquarium/aspects/pointcut_spec.rb:102-118 | the five example classes with `:suppress_ancestor_methods` match only the public instance method and give the four `all` sentinels |
| Fixtures.SuppressedExampleTypesConstructed | aquarium/spec/aquarium/aspects/pointcut_spec.rb:102-118 | `Pointcut.new` with the suite's `:types => @example_types, :method_options => :suppress_ancestor_methods` succeeds with the public join point matched and the four `all` sentinels not matched |
| Fixtures.SuppressedExampleTypeSpellings | aquarium/spec/aquarium/aspects/pointcut_spec.rb:84-100 | the same case with the types given by name and as `/Class.*Method/` resolves to `{pub_jp}` and the four `all` sentinels |
| Fixtures.ExampleTypesByPattern | aquarium/spec/aquarium/aspects/pointcut_spec.rb:84-88 | `Pointcut.new :types => /Class.*Method/, :method_options => :suppress_ancestor_methods` succeeds with the public join point matched and the four `all` sentinels not matched |
| Fixtures.ExampleTypesByName | aquarium/spec/aquarium/aspects/pointcut_spec.rb:96-100 | `Pointcut.new` with the example types given by name and `:suppress_ancestor_methods` succeeds with the same matched and not-matched join points |
| Fixtures.MakeAttributeMethodNamesExample | aquarium/spec/aquarium/aspects/pointcut_spec.rb:794-810 | `@a @b @c @d` and `a b c d` give `a a= b b= c c= d d=`; the symbols `:a` to `:d` are the bare case, and the colon-prefixed strings `":a"` to `":d"` give the same names |
| FunkyFixtures.EqualsSuffixWithSuppression | aquarium/spec/aquarium/aspects/pointcut_spec.rb:467-471 | with ancestors suppressed, `/=$/` matches only `x=` on `ClassWithFunkyMethodNames` |
| FunkyFixtures.EqualsOperatorWithoutSuppression | aquarium/spec/aquarium/aspects/pointcut_spec.rb:481-485 | without suppression, the exact name `==` is matched on the class that redefines it |
| SingletonFixtures.SingletonMethodsOfTypes | aquarium/spec/aquarium/aspects/pointcut_spec.rb:542-546 | a singleton search over `NotQuiteEmpty` and `Empty` matches `a_class_singleton_method` and records `Empty` as not matched |
| SingletonFixtures.SingletonMethodsOfObjects | aquarium/spec/aquarium/aspects/pointcut_spec.rb:536-540 | a singleton search over the two objects matches `a_singleton_method` on the object that has it and records the other as not matched |

## Left out

- Ruby reflection is not modelled. This covers `methods`, `ancestors`, singleton classes and constant lookup. The member pool of every target, and the set of known type names, are given as registry data in the `Universe`.
- Regular-expression semantics are not modelled. A pattern is an opaque predicate on its source text and the subject, so the concrete patterns of the suite appear only as hypotheses of the general lemmas or as fixture oracles.
- The example classes are not all modelled. Most live in a fixture file that is not part of this model. The five `ClassWith…Method` classes (with two `Object` methods standing for everything inherited), `ClassWithFunkyMethodNames` and the singleton fixtures are encoded as registry data; `ClassWithAttribs` is covered by the general attribute lemmas instead.
- Regular expressions in the fixtures are narrow: the five example classes use an oracle that understands only `/Class.*Method/`, read as "starts with `Class` and ends with `Method`" (which is what that pattern does on those names); `ClassWithFunkyMethodNames` uses one that understands only one-character `/c$/` patterns; the singleton fixtures use one that matches nothing.
- The `:default_object` key of the specification is not modelled. It is always empty in the suite.
- Strings and symbols are not distinguished. A method name or type name given as a string and as a symbol is the same `string` here.
- Searching `:instance` and `:class` together is not modelled. Giving both searches the class scope only, and the class flag of the join points follows `:class`.
- Whether operator methods such as `==` and `=~` are inherited is registry content, not a rule of the model (the owner field of a member).
- The not-matched sentinel of a target always carries the method name `all`, which is what every assertion that observes it uses.
- Advice weaving, interception and concurrency are not modelled, because the pointcut only computes join points.
- Pointcuts.NamedAttributesSelectTheirAccessors: requires that no exact attribute name ends in `=` once its sigil is stripped. An exact attribute name loses its sigil but keeps a trailing `=` (a pattern drops it), so `Named("x=")` would select the method `x==` while `make_attribute_method_names` gives `x=`. Ruby attribute names cannot end in `=`, and the suite never passes one.
- CandidateResolver.UnresolvableObjectNames: a string or symbol object that names a KNOWN type, under a method matcher other than the default `all`, is neither reported nor resolved: it contributes no target. The suite does not settle this case; the model only raises for names that resolve to no type.
