/** The building blocks of the screens' list filters: the case-insensitive substring search,
    the `'all'`-or-equal select filters and the empty-admits-all checkbox lists. */
module Selection {
  import opened Text

  /** `field.toLowerCase().includes(term.toLowerCase())` */
  predicate FieldMatches(field: string, term: string)
  {
    Includes(Lower(field), Lower(term))
  }

  /** The search box starts empty, and the empty term matches every field. */
  lemma EmptyTermMatches(field: string)
    ensures FieldMatches(field, "")
  {
    assert Lower("") == "";
    IncludesEmpty(Lower(field));
  }

  /** A field matches exactly when the lower-cased term occurs somewhere in the lower-cased field. */
  lemma FieldMatchesIff(field: string, term: string)
    ensures FieldMatches(field, term) <==> exists i: nat :: OccursAt(Lower(field), Lower(term), i)
  {
    IncludesIff(Lower(field), Lower(term));
  }

  /** The search ignores case: typing the term in upper or lower case selects the same fields. */
  lemma FieldMatchesIgnoresCase(field: string, term: string)
    ensures FieldMatches(field, term) <==> FieldMatches(field, Lower(term))
  {
    LowerIdempotent(term);
  }

  /** `filter === 'all' || value === filter` */
  predicate AllOrEquals(filter: string, value: string)
  {
    filter == "all" || value == filter
  }

  /** `list.length === 0 || list.includes(value)` */
  predicate ListAdmits(list: seq<string>, value: string)
  {
    |list| == 0 || value in list
  }
}
