/** The operation classifier: a query text is lower-cased and matched
    against an ordered list of SQL verbs; the first verb that is a prefix
    names the operation, and a query no verb prefixes is "unknown". */
module Classifier {

  /** The closed set of operation tags. */
  datatype Operation = Update | Select | Insert | Delete | Commit | Rollback | Unknown

  /** The tag as it appears in span names and in the `db.operation` attribute. */
  function Name(op: Operation): string {
    match op
    case Update => "update"
    case Select => "select"
    case Insert => "insert"
    case Delete => "delete"
    case Commit => "commit"
    case Rollback => "rollback"
    case Unknown => "unknown"
  }

  /** The verbs, in the order the classifier tries them. */
  const Keywords: seq<Operation> := [Update, Select, Insert, Delete, Commit, Rollback]

  /** Lower case of one rune as `unicode.ToLower` gives it, for every rune
      whose lower case is ASCII: the ASCII capitals, LATIN CAPITAL LETTER I
      WITH DOT ABOVE and KELVIN SIGN. Every other rune is kept, which
      cannot change a classification since all verbs are ASCII. */
  function LowerRune(c: char): char {
    if 'A' <= c <= 'Z' then (c as int + 32) as char
    else if c == '\U{0130}' then 'i'
    else if c == '\U{212A}' then 'k'
    else c
  }

  /** `strings.ToLower`, rune by rune. */
  function Lower(s: string): (r: string)
    ensures |r| == |s|
  {
    seq(|s|, i requires 0 <= i < |s| => LowerRune(s[i]))
  }

  /** `parseQueryOperation`: a tag other than Unknown is a verb that
      prefixes the lower-cased query, and Unknown means no verb does. */
  function ParseQueryOperation(query: string): (op: Operation)
    ensures op != Unknown ==> op in Keywords && Name(op) <= Lower(query)
    ensures op == Unknown <==> forall k | k in Keywords :: !(Name(k) <= Lower(query))
  {
    var q := Lower(query);
    if "update" <= q then Update
    else if "select" <= q then Select
    else if "insert" <= q then Insert
    else if "delete" <= q then Delete
    else if "commit" <= q then Commit
    else if "rollback" <= q then Rollback
    else Unknown
  }

  /** The verbs start with six different letters, so at most one of them
      prefixes any text: the order of the tests never decides a result. */
  lemma KeywordsExclusive(s: string, a: Operation, b: Operation)
    requires a in Keywords && b in Keywords
    requires Name(a) <= s && Name(b) <= s
    ensures a == b
  {
    assert Name(a)[0] == s[0] == Name(b)[0];
  }

  /** A verb that prefixes the lower-cased query is exactly the tag returned. */
  lemma ParseFindsPrefixKeyword(query: string, k: Operation)
    requires k in Keywords && Name(k) <= Lower(query)
    ensures ParseQueryOperation(query) == k
  {
    var op := ParseQueryOperation(query);
    KeywordsExclusive(Lower(query), op, k);
  }

  lemma LowerIdempotent(s: string)
    ensures Lower(Lower(s)) == Lower(s)
  {
  }

  /** Classification ignores case: a query and its lower-cased form get the same tag. */
  lemma ParseIgnoresCase(query: string)
    ensures ParseQueryOperation(Lower(query)) == ParseQueryOperation(query)
  {
    LowerIdempotent(query);
  }

  lemma LowerAppend(a: string, b: string)
    ensures Lower(a + b) == Lower(a) + Lower(b)
  {
  }

  /** Classification is a prefix test: once a query names a verb, whatever
      follows it does not change the tag. */
  lemma ParseKeepsPrefix(query: string, rest: string)
    requires ParseQueryOperation(query) != Unknown
    ensures ParseQueryOperation(query + rest) == ParseQueryOperation(query)
  {
  }

  /** Leading white space is not skipped: such a query is always "unknown". */
  lemma LeadingSpaceIsUnknown(query: string)
    ensures ParseQueryOperation(" " + query) == Unknown
  {
    var q := Lower(" " + query);
    assert q[0] == ' ';
    forall k | k in Keywords
      ensures !(Name(k) <= q)
    {
      assert Name(k)[0] != ' ';
    }
  }

  /** The documented example: case does not matter. */
  lemma UpperAndLowerSelect()
    ensures ParseQueryOperation("SELECT 1") == Select
    ensures ParseQueryOperation("select 1") == Select
  {
    KeywordPrefixes("SELECT 1", Select);
    KeywordPrefixes("select 1", Select);
  }

  /** The documented example: leading blanks do matter. */
  lemma IndentedSelect()
    ensures ParseQueryOperation("  select 1") == Unknown
  {
    LeadingSpaceIsUnknown(" select 1");
    assert " " + " select 1" == "  select 1";
  }

  /** The fixed statements the transaction handle names its spans after. */
  lemma TransactionVerbs()
    ensures ParseQueryOperation("commit") == Commit
    ensures ParseQueryOperation("rollback") == Rollback
  {
    KeywordPrefixes("commit", Commit);
    KeywordPrefixes("rollback", Rollback);
  }

  /** Helper: a query whose first letters spell a verb, in any case, gets that verb's tag. */
  lemma KeywordPrefixes(query: string, k: Operation)
    requires k in Keywords && |Name(k)| <= |query|
    requires forall i :: 0 <= i < |Name(k)| ==> LowerRune(query[i]) == Name(k)[i]
    ensures ParseQueryOperation(query) == k
  {
    assert Name(k) <= Lower(query) by {
      assert Lower(query)[..|Name(k)|] == Name(k);
    }
    ParseFindsPrefixKeyword(query, k);
  }
}
