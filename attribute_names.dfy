/**
 * Attribute expansion: an attribute name stands for its reader method `a`
 * and its writer method `a=`. Attribute names may carry a leading `@`
 * (instance-variable form) or `:` (symbol form), which is ignored.
 */
module AttributeNames {

  /** The `attribute_options` flags; singular and plural spellings are aliases. */
  datatype AttributeOption = Reader | Readers | Writer | Writers

  predicate IsSigil(c: char) {
    c == '@' || c == ':'
  }

  predicate HasSigil(s: string) {
    |s| > 0 && IsSigil(s[0])
  }

  /** The bare attribute name: one leading `@` or `:` removed. */
  function StripSigil(s: string): string {
    if HasSigil(s) then s[1..] else s
  }

  function WriterName(a: string): string {
    a + "="
  }

  predicate IsWriterName(n: string) {
    |n| > 0 && n[|n| - 1] == '='
  }

  /** The attribute a writer method name belongs to. */
  function ReaderOf(w: string): string
    requires IsWriterName(w)
  {
    w[..|w| - 1]
  }

  lemma WriterReaderRoundTrip(a: string)
    ensures IsWriterName(WriterName(a)) && ReaderOf(WriterName(a)) == a
  {
    assert WriterName(a)[..|a|] == a;
  }

  lemma ReaderWriterRoundTrip(w: string)
    requires IsWriterName(w)
    ensures WriterName(ReaderOf(w)) == w
  {
    assert ReaderOf(w) + "=" == w;
  }

  /**
   * `make_attribute_method_names`: every attribute token yields exactly its
   * reader and its writer, with any sigil removed.
   */
  function MakeAttributeMethodNames(names: set<string>): set<string> {
    (set a | a in names :: StripSigil(a)) + (set a | a in names :: WriterName(StripSigil(a)))
  }

  /** Each token yields its reader and its writer, and every name produced is one of those. */
  lemma MakeAttributeMethodNamesSpec(names: set<string>, n: string)
    ensures n in MakeAttributeMethodNames(names) <==>
      exists a :: a in names && (n == StripSigil(a) || n == WriterName(StripSigil(a)))
  {
  }

  /** The readers and writers of a set of bare names. */
  function Accessors(bare: set<string>): set<string> {
    bare + (set a | a in bare :: WriterName(a))
  }

  function WithPrefix(prefix: string, bare: set<string>): set<string> {
    set a | a in bare :: prefix + a
  }

  /**
   * The `@`-prefixed, the bare and the `:`-prefixed spellings of the same
   * attributes give the same method names, namely their readers and writers.
   */
  lemma MakeAttributeMethodNamesIgnoresSigil(bare: set<string>)
    requires forall a :: a in bare ==> !HasSigil(a)
    ensures MakeAttributeMethodNames(bare) == Accessors(bare)
    ensures MakeAttributeMethodNames(WithPrefix("@", bare)) == Accessors(bare)
    ensures MakeAttributeMethodNames(WithPrefix(":", bare)) == Accessors(bare)
  {
    forall p | p == "@" || p == ":"
      ensures MakeAttributeMethodNames(WithPrefix(p, bare)) == Accessors(bare)
    {
      forall a | a in bare ensures StripSigil(p + a) == a {
        assert (p + a)[1..] == a;
      }
      var r := MakeAttributeMethodNames(WithPrefix(p, bare));
      forall n | n in r ensures n in Accessors(bare) {
        var x :| x in WithPrefix(p, bare) && (n == StripSigil(x) || n == WriterName(StripSigil(x)));
        var a :| a in bare && x == p + a;
      }
      forall n | n in Accessors(bare) ensures n in r {
        if n in bare {
          assert StripSigil(p + n) == n;
          assert p + n in WithPrefix(p, bare);
        } else {
          var a :| a in bare && n == WriterName(a);
          assert p + a in WithPrefix(p, bare);
        }
      }
    }
  }

  // Attribute patterns

  /** Removes a leading `@` or `:` from a pattern source, also when it follows a `^` anchor. */
  function StripPatternSigil(src: string): string {
    if |src| >= 2 && src[0] == '^' && IsSigil(src[1]) then "^" + src[2..]
    else if HasSigil(src) then src[1..]
    else src
  }

  function StripTrailingEquals(s: string): string {
    if IsWriterName(s) then ReaderOf(s) else s
  }

  /**
   * The pattern an attribute pattern is matched with, against attribute
   * (reader) names: sigils and a trailing `=` play no part in it.
   */
  function NormalizeAttributePattern(src: string): string {
    StripTrailingEquals(StripPatternSigil(src))
  }

  /** A trailing `=` in an attribute pattern does not change what it selects. */
  lemma TrailingEqualsIgnored(src: string)
    requires !IsWriterName(src)
    ensures NormalizeAttributePattern(src + "=") == NormalizeAttributePattern(src)
  {
    var t := src + "=";
    if |src| >= 2 && src[0] == '^' && IsSigil(src[1]) {
      assert StripPatternSigil(t) == StripPatternSigil(src) + "=";
    } else if HasSigil(src) {
      assert StripPatternSigil(t) == StripPatternSigil(src) + "=";
    } else {
      assert StripPatternSigil(t) == t;
    }
    WriterReaderRoundTrip(StripPatternSigil(src));
    assert !IsWriterName(StripPatternSigil(src));
  }

  /**
   * Patterns written against `@attr`, `:attr` or `attr`, anchored or not,
   * are the same attribute pattern.
   */
  lemma PatternSigilIgnored(body: string)
    requires !HasSigil(body) && (|body| == 0 || body[0] != '^')
    ensures NormalizeAttributePattern("@" + body) == NormalizeAttributePattern(body)
    ensures NormalizeAttributePattern(":" + body) == NormalizeAttributePattern(body)
    ensures NormalizeAttributePattern("^@" + body) == NormalizeAttributePattern("^" + body)
    ensures NormalizeAttributePattern("^:" + body) == NormalizeAttributePattern("^" + body)
  {
    assert ("@" + body)[1..] == body;
    assert (":" + body)[1..] == body;
    assert ("^@" + body)[2..] == body;
    assert ("^:" + body)[2..] == body;
  }

  // The `attribute_options` filter

  predicate ReadersAsked(opts: set<AttributeOption>) {
    Reader in opts || Readers in opts
  }

  predicate WritersAsked(opts: set<AttributeOption>) {
    Writer in opts || Writers in opts
  }

  /** Readers are selected unless only writers were asked for. */
  predicate WantsReaders(opts: set<AttributeOption>) {
    ReadersAsked(opts) || !WritersAsked(opts)
  }

  /** Writers are selected unless only readers were asked for. */
  predicate WantsWriters(opts: set<AttributeOption>) {
    WritersAsked(opts) || !ReadersAsked(opts)
  }

  /**
   * `[:readers]` and `[:writers]` each pick one accessor form, and giving
   * both is the same as giving neither.
   */
  lemma AccessorChoice(opts: set<AttributeOption>)
    ensures WantsReaders({Readers}) && !WantsWriters({Readers})
    ensures !WantsReaders({Writers}) && WantsWriters({Writers})
    ensures WantsReaders({}) && WantsWriters({})
    ensures WantsReaders({Readers, Writers}) && WantsWriters({Readers, Writers})
    ensures WantsReaders(opts) || WantsWriters(opts)
  {
  }
}
