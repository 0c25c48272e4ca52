/**
 * Table-name derivation and filter-clause wrapping of the vector store: the
 * constructor's default/trim rule, the table-name getters, the schema-qualified
 * name of the earlier variant, and the "AND (...)" wrapping of a native filter.
 */
module Naming {
  import opened Wrappers

  const DefaultTableName: string := "vector_store"
  const ContentSuffix: string := "_content"
  const QuerySuffix: string := "_query"

  /** Characters removed by Java's String.trim(): every code point up to U+0020. */
  predicate IsTrimmed(c: char) { c <= ' ' }

  /** Number of leading characters that trim() removes. */
  function LeadingBlanks(s: string): (n: nat)
    ensures n <= |s|
    ensures forall k :: 0 <= k < n ==> IsTrimmed(s[k])
    ensures n < |s| ==> !IsTrimmed(s[n])
  {
    if |s| == 0 || !IsTrimmed(s[0]) then 0
    else
      var n := 1 + LeadingBlanks(s[1..]);
      assert forall k :: 1 <= k < n ==> s[k] == s[1..][k - 1];
      n
  }

  /** Number of trailing characters that trim() removes. */
  function TrailingBlanks(s: string): (n: nat)
    ensures n <= |s|
    ensures forall k :: |s| - n <= k < |s| ==> IsTrimmed(s[k])
    ensures n < |s| ==> !IsTrimmed(s[|s| - 1 - n])
  {
    if |s| == 0 || !IsTrimmed(s[|s| - 1]) then 0
    else
      var n := 1 + TrailingBlanks(s[..|s| - 1]);
      assert forall k :: |s| - n <= k < |s| - 1 ==> s[k] == s[..|s| - 1][k];
      n
  }

  /**
   * Java's String.trim(): the longest infix that neither starts nor ends with a
   * character up to U+0020; everything cut off on either side is such a character.
   */
  function Trim(s: string): (r: string)
    ensures LeadingBlanks(s) + |r| <= |s|
    ensures r == s[LeadingBlanks(s)..LeadingBlanks(s) + |r|]
    ensures |r| > 0 ==> !IsTrimmed(r[0]) && !IsTrimmed(r[|r| - 1])
    ensures forall k :: LeadingBlanks(s) + |r| <= k < |s| ==> IsTrimmed(s[k])
  {
    var lead := LeadingBlanks(s);
    if lead == |s| then []
    else
      var trail := TrailingBlanks(s);
      s[lead..|s| - trail]
  }

  /**
   * The table base name chosen by the constructor: "vector_store" when the argument
   * is null or empty, otherwise the trimmed argument. Emptiness is tested before
   * trimming.
   */
  function BaseName(vectorTableName: Option<string>): (r: string)
    ensures vectorTableName == None || vectorTableName == Some("") ==> r == DefaultTableName
    ensures vectorTableName.Some? && vectorTableName.value != "" ==> r == Trim(vectorTableName.value)
  {
    if vectorTableName.Some? && vectorTableName.value != "" then Trim(vectorTableName.value)
    else DefaultTableName
  }

  /** A non-empty name made only of blanks passes the emptiness test and then trims to "". */
  lemma {:induction false} BlankNameGivesEmptyBase(name: string)
    requires name != ""
    requires forall k :: 0 <= k < |name| ==> IsTrimmed(name[k])
    ensures BaseName(Some(name)) == ""
  {
    AllBlankLeading(name);
  }

  lemma {:induction false} AllBlankLeading(s: string)
    requires forall k :: 0 <= k < |s| ==> IsTrimmed(s[k])
    ensures LeadingBlanks(s) == |s|
  {
    if |s| > 0 {
      assert forall k :: 0 <= k < |s[1..]| ==> s[1..][k] == s[k + 1];
      AllBlankLeading(s[1..]);
    }
  }

  /** A name that already has no surrounding blanks is used as it is. */
  lemma TrimKeepsTrimmedName(s: string)
    requires s != "" && !IsTrimmed(s[0]) && !IsTrimmed(s[|s| - 1])
    ensures Trim(s) == s
  {
  }

  /** Trimming twice is the same as trimming once. */
  lemma TrimIdempotent(s: string)
    ensures Trim(Trim(s)) == Trim(s)
  {
    var t := Trim(s);
    if t != "" {
      TrimKeepsTrimmedName(t);
    }
  }

  /** getTableName(): the embedding table is named by the base itself. */
  function EmbeddingTableName(base: string): string { base }

  /** getContentTableName(): the base followed by "_content". */
  function ContentTableName(base: string): (r: string)
    ensures |r| == |base| + |ContentSuffix| && r[..|base|] == base && r[|base|..] == ContentSuffix
  {
    base + ContentSuffix
  }

  /** getQueryTableName(): the base followed by "_query". */
  function QueryTableName(base: string): (r: string)
    ensures |r| == |base| + |QuerySuffix| && r[..|base|] == base && r[|base|..] == QuerySuffix
  {
    base + QuerySuffix
  }

  /** The embedding, content and query tables of one store never share a name. */
  lemma TableNamesDistinct(base: string)
    ensures EmbeddingTableName(base) != ContentTableName(base)
    ensures EmbeddingTableName(base) != QueryTableName(base)
    ensures ContentTableName(base) != QueryTableName(base)
  {
  }

  /** How Java renders a possibly-null string in concatenation and String.format. */
  function JavaText(s: Option<string>): string
  {
    if s.Some? then s.value else "null"
  }

  /** getFullyQualifiedTableName() of the earlier variant: schemaName + "." + base. */
  function QualifiedName(schemaName: Option<string>, base: string): (r: string)
    ensures r == JavaText(schemaName) + "." + base
    ensures |r| == |JavaText(schemaName)| + 1 + |base| && r[|JavaText(schemaName)|] == '.'
  {
    JavaText(schemaName) + "." + base
  }

  /**
   * Character.isWhitespace: the Unicode space, line and paragraph separators other
   * than the no-break spaces U+00A0, U+2007 and U+202F, and the controls
   * U+0009..U+000D and U+001C..U+001F.
   */
  predicate IsWhitespace(c: char)
  {
    || ('\U{9}' <= c <= '\U{D}')
    || ('\U{1C}' <= c <= '\U{1F}')
    || c == ' '
    || c == '\U{1680}'
    || ('\U{2000}' <= c <= '\U{200A}' && c != '\U{2007}')
    || c == '\U{2028}' || c == '\U{2029}'
    || c == '\U{205F}' || c == '\U{3000}'
  }

  /** StringUtils.hasText: some character of s is not whitespace. */
  predicate HasText(s: string)
  {
    exists k :: 0 <= k < |s| && !IsWhitespace(s[k])
  }

  /**
   * The filter string appended to "WHERE 1=1": empty when the native expression
   * has no text, otherwise "AND (" + native + ")".
   */
  function FilterClause(native: string): (r: string)
    ensures !HasText(native) <==> r == ""
    ensures HasText(native) ==> |r| == |native| + 6 && r[..5] == "AND (" && r[5..|r| - 1] == native && r[|r| - 1] == ')'
  {
    if HasText(native) then "AND (" + native + ")" else ""
  }
}
