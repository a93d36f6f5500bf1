/**
  The search boxes of the catalog pages. Items match on name or SKU,
  ignoring case; customers and suppliers match on name ignoring case, on
  phone as typed, or on email ignoring case when they have a non-empty one.
*/
module Search {
  import opened Wrappers
  import opened Text
  import opened Lists

  /** `a.toLowerCase().includes(term.toLowerCase())`. */
  predicate ContainsFolded(a: string, term: string) {
    Contains(Lower(a), Lower(term))
  }

  predicate NameOrSkuMatches(name: string, sku: string, term: string) {
    ContainsFolded(name, term) || ContainsFolded(sku, term)
  }

  /** The rule shared by the customer and supplier lists; an absent or empty email is falsy and never matches. */
  predicate ContactMatches(name: string, phone: string, email: Option<string>, term: string) {
    || ContainsFolded(name, term)
    || Contains(phone, term)
    || (email.Some? && email.value != "" && ContainsFolded(email.value, term))
  }

  /** An empty search term matches everything. */
  lemma EmptyTermMatches(a: string)
    ensures ContainsFolded(a, "")
  {
    ContainsEmpty(Lower(a));
  }

  /** Case in the search term never matters for a folded comparison. */
  lemma FoldedIgnoresTermCase(a: string, term: string)
    ensures ContainsFolded(a, term) <==> ContainsFolded(a, Lower(term))
  {
    LowerIdempotent(term);
  }

  /** A contact without an email, or with an empty one, can only match through name or phone. */
  lemma ContactWithoutEmail(name: string, phone: string, term: string)
    ensures ContactMatches(name, phone, None, term) <==> ContainsFolded(name, term) || Contains(phone, term)
    ensures ContactMatches(name, phone, Some(""), term) <==> ContactMatches(name, phone, None, term)
  {
  }
}
