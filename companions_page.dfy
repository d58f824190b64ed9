/**
 * The explore page of app/companions/page.tsx: the category sent to the
 * companions API, the search and category taken from the URL, and the
 * case-insensitive search over name, bio and tags.
 */
module CompanionsPage {
  import opened Wrappers
  import opened Strings
  import opened Lists
  import opened Types

  /** The categories of the category filter. */
  const Categories: seq<string> := ["all", "girls", "guys", "anime"]

  /** The API's `category` parameter: "all" is sent as no category at all. */
  function ApiCategory(category: string): (r: Option<string>)
    ensures r.None? <==> category == "all"
    ensures r.Some? ==> r.value == category
  {
    if category == "all" then None else Some(category)
  }

  datatype Filters = Filters(search: string, category: string)

  /** The initial state: the URL's `search` or "", the URL's `category` or "all" (as given, not checked). */
  function InitialFilters(categoryParam: Option<string>, searchParam: Option<string>): (f: Filters)
    ensures f.search == (if searchParam.Some? then searchParam.value else "")
    ensures categoryParam.Some? && categoryParam.value != "" ==> f.category == categoryParam.value
    ensures !(categoryParam.Some? && categoryParam.value != "") ==> f.category == "all"
  {
    Filters(
      if searchParam.Some? then searchParam.value else "",
      if categoryParam.Some? && categoryParam.value != "" then categoryParam.value else "all")
  }

  /**
   * The effect on a change of the URL: a category is taken over only when it
   * is one of `Categories`, a `search` parameter whenever it is present.
   */
  function SyncFromUrl(f: Filters, categoryParam: Option<string>, searchParam: Option<string>): (r: Filters)
    ensures categoryParam.Some? && categoryParam.value in Categories ==> r.category == categoryParam.value
    ensures !(categoryParam.Some? && categoryParam.value in Categories) ==> r.category == f.category
    ensures searchParam.Some? ==> r.search == searchParam.value
    ensures searchParam.None? ==> r.search == f.search
  {
    Filters(
      if searchParam.Some? then searchParam.value else f.search,
      if categoryParam.Some? && categoryParam.value != "" && categoryParam.value in Categories
      then categoryParam.value else f.category)
  }

  /**
   * Syncing keeps a known category known and is idempotent; the category
   * right after mounting is the URL's, whether or not it is a known one.
   */
  lemma SyncProperties(f: Filters, categoryParam: Option<string>, searchParam: Option<string>)
    ensures f.category in Categories ==> SyncFromUrl(f, categoryParam, searchParam).category in Categories
    ensures var g := SyncFromUrl(f, categoryParam, searchParam);
      SyncFromUrl(g, categoryParam, searchParam) == g
    ensures var g := SyncFromUrl(InitialFilters(categoryParam, searchParam), categoryParam, searchParam);
      (categoryParam.Some? && categoryParam.value != "" ==> g.category == categoryParam.value)
      && (g.category in Categories <==> !(categoryParam.Some? && categoryParam.value != "") || categoryParam.value in Categories)
  {
  }

  /** Some tag holds the (already lowercased) query, case-insensitively. */
  predicate TagMatches(tags: seq<string>, query: string)
  {
    exists i :: 0 <= i < |tags| && Contains(Lower(tags[i]), query)
  }

  /** The search predicate: the lowercased search occurs in the lowercased name, bio or some tag. */
  predicate Matches(c: Companion, search: string)
  {
    var query := Lower(search);
    Contains(Lower(c.name), query) || Contains(Lower(c.bio), query) || TagMatches(c.tags, query)
  }

  /** `filtered`: the matching companions, in their order. */
  function Filtered(companions: seq<Companion>, search: string): (r: seq<Companion>)
    ensures forall c :: c in r <==> c in companions && Matches(c, search)
    ensures Subsequence(r, companions)
  {
    Filter(companions, (c: Companion) => Matches(c, search))
  }

  /** An empty search keeps every companion, in order. */
  lemma EmptySearchKeepsAll(companions: seq<Companion>)
    ensures Filtered(companions, "") == companions
  {
    forall c | c in companions ensures Matches(c, "") {
      assert Lower("") == "";
      ContainsEmpty(Lower(c.name));
    }
    FilterAll(companions, (c: Companion) => Matches(c, ""));
  }

  lemma LowerIdempotent(s: string)
    ensures Lower(Lower(s)) == Lower(s)
  {
    LowerIdentity(Lower(s));
  }

  /** The search ignores case: searching for the lowercased text keeps the same companions. */
  lemma SearchIgnoresCase(companions: seq<Companion>, search: string)
    ensures Filtered(companions, Lower(search)) == Filtered(companions, search)
  {
    LowerIdempotent(search);
    FilterSame(companions, (c: Companion) => Matches(c, Lower(search)), (c: Companion) => Matches(c, search));
  }
}
