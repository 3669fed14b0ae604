/** The case-insensitive substring test the search boxes share: a field
    matches when its lower-cased text contains the lower-cased query. */
module Search {
  import opened Text

  predicate Matches(field: string, query: string)
  {
    Contains(Lower(field), Lower(query))
  }

  /** `fields.some(f => f.toLowerCase().includes(query))`. */
  predicate AnyMatches(fields: seq<string>, query: string)
  {
    exists i :: 0 <= i < |fields| && Matches(fields[i], query)
  }

  /** The empty query matches every field. */
  lemma EmptyQueryMatches(field: string)
    ensures Matches(field, "")
  {
    ContainsEmpty(Lower(field));
  }

  /** A one-character query matches a field exactly when the field holds
      that character once lower-cased. */
  lemma CharQueryMatches(field: string, c: char)
    ensures Matches(field, [c]) <==> LowerChar(c) in Lower(field)
  {
    assert Lower([c]) == [LowerChar(c)];
    ContainsChar(Lower(field), LowerChar(c));
  }
}
