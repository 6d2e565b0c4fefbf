/**
 * The search bar: it keeps the text typed so far, submits the trimmed text
 * when it is not blank, and disables its buttons while a fetch is running.
 */
module SearchBar {
  import opened Common

  /**
   * The characters `String.prototype.trim` removes: ECMAScript's WhiteSpace
   * (tab, vertical tab, form feed, space, no-break space, byte order mark and
   * the Unicode space separators) and LineTerminator (line feed, carriage
   * return, line and paragraph separators).
   */
  predicate IsWhitespace(c: char)
  {
    var n := c as int;
    || 0x09 <= n <= 0x0D
    || n == 0x20 || n == 0xA0 || n == 0x1680
    || 0x2000 <= n <= 0x200A
    || n == 0x2028 || n == 0x2029 || n == 0x202F || n == 0x205F
    || n == 0x3000 || n == 0xFEFF
  }

  /** The number of whitespace characters `s` starts with. */
  function LeadingSpace(s: string): (n: nat)
    ensures n <= |s|
    ensures forall k :: 0 <= k < n ==> IsWhitespace(s[k])
    ensures n < |s| ==> !IsWhitespace(s[n])
  {
    if s == [] || !IsWhitespace(s[0]) then 0 else 1 + LeadingSpace(s[1..])
  }

  /** The index at which the whitespace `s` ends with begins. */
  function TrailingSpaceStart(s: string): (n: nat)
    ensures n <= |s|
    ensures forall k :: n <= k < |s| ==> IsWhitespace(s[k])
    ensures n > 0 ==> !IsWhitespace(s[n - 1])
  {
    if s == [] || !IsWhitespace(s[|s| - 1]) then |s| else TrailingSpaceStart(s[..|s| - 1])
  }

  /** `String.prototype.trim`: `s` without its leading and trailing whitespace. */
  function Trim(s: string): (t: string)
    ensures t != [] ==> !IsWhitespace(t[0]) && !IsWhitespace(t[|t| - 1])
    ensures LeadingSpace(s) + |t| <= |s|
    ensures t == s[LeadingSpace(s)..LeadingSpace(s) + |t|]
    ensures forall k :: LeadingSpace(s) + |t| <= k < |s| ==> IsWhitespace(s[k])
  {
    var rest := s[LeadingSpace(s)..];
    rest[..TrailingSpaceStart(rest)]
  }

  /** Trimming twice is trimming once. */
  lemma TrimIdempotent(s: string)
    ensures Trim(Trim(s)) == Trim(s)
  {
    var t := Trim(s);
    assert LeadingSpace(t) == 0;
    assert t[0..] == t;
    assert TrailingSpaceStart(t) == |t|;
  }

  /** A string trims to nothing exactly when it is all whitespace. */
  lemma TrimBlankIffAllWhitespace(s: string)
    ensures Trim(s) == "" <==> forall k :: 0 <= k < |s| ==> IsWhitespace(s[k])
  {
    if Trim(s) == "" {
      forall k | 0 <= k < |s| ensures IsWhitespace(s[k]) {
        if k >= LeadingSpace(s) {
          assert LeadingSpace(s) + |Trim(s)| <= k;
        }
      }
    }
  }

  /** The state of the search bar: the text in its input field. */
  class SearchBox {
    var query: string

    constructor ()
      ensures query == ""
    {
      query := "";
    }

    /** Typing stores the field's value as it is, untrimmed. */
    method OnChange(value: string)
      modifies this
      ensures query == value
    {
      query := value;
    }

    /**
     * Submitting the form: the search callback receives the trimmed query, and
     * is not called at all when the trimmed query is empty.
     */
    method Submit() returns (search: Option<string>)
      ensures search.Some? <==> Trim(query) != ""
      ensures search.Some? ==> search.value == Trim(query)
      ensures search.Some? ==>
        && search.value != ""
        && !IsWhitespace(search.value[0])
        && !IsWhitespace(search.value[|search.value| - 1])
        && Trim(search.value) == search.value
    {
      var trimmed := Trim(query);
      if trimmed != "" {
        TrimIdempotent(query);
        search := Some(trimmed);
      } else {
        search := None;
      }
    }

    /** The search button is disabled while loading or while the query is blank. */
    predicate SearchDisabled(loading: bool)
      reads this
    {
      loading || Trim(query) == ""
    }

    /** The location button is disabled exactly while loading, whatever the query. */
    predicate LocationDisabled(loading: bool)
      reads this
    {
      loading
    }
  }

  /**
   * The search button is disabled exactly while loading or while the query
   * is all whitespace, which is when a submit would not search; the location
   * button is disabled exactly while loading, whatever the query.
   */
  lemma ButtonsDisabled(box: SearchBox, loading: bool)
    ensures box.SearchDisabled(loading) <==>
      loading || forall k :: 0 <= k < |box.query| ==> IsWhitespace(box.query[k])
    ensures box.LocationDisabled(loading) <==> loading
  {
    TrimBlankIffAllWhitespace(box.query);
  }
}
