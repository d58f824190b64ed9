/**
 * The explore page of src/pages/Companions.tsx, the older client: a
 * category from the URL and a search over name and bio.
 */
module SrcCompanions {
  import opened Wrappers
  import opened Strings
  import opened Lists
  import opened SrcTypes

  /** The URL's `category`, or 'all' when it is missing or empty. */
  function InitialCategory(categoryParam: Option<string>): (category: string)
    ensures categoryParam.Some? && categoryParam.value != "" ==> category == categoryParam.value
    ensures !(categoryParam.Some? && categoryParam.value != "") ==> category == "all"
  {
    if categoryParam.Some? && categoryParam.value != "" then categoryParam.value else "all"
  }

  /** The category matches ('all' matches every companion) and the lowercased search occurs in the name or bio. */
  predicate Keeps(c: Companion, category: string, search: string)
  {
    && (category == "all" || c.category == category)
    && (Contains(Lower(c.name), Lower(search)) || Contains(Lower(c.bio), Lower(search)))
  }

  /** `filtered`: the kept companions, in their order. */
  function Filtered(companions: seq<Companion>, category: string, search: string): (r: seq<Companion>)
    ensures forall c :: c in r <==> c in companions && Keeps(c, category, search)
    ensures forall i :: 0 <= i < |r| ==> category == "all" || r[i].category == category
    ensures Subsequence(r, companions)
  {
    Filter(companions, (c: Companion) => Keeps(c, category, search))
  }

  /** With 'all' and an empty search every companion is listed, in order. */
  lemma AllAndEmptyKeepAll(companions: seq<Companion>)
    ensures Filtered(companions, "all", "") == companions
  {
    forall c | c in companions ensures Keeps(c, "all", "") {
      assert Lower("") == "";
      ContainsEmpty(Lower(c.name));
    }
    FilterAll(companions, (c: Companion) => Keeps(c, "all", ""));
  }

  /** A category other than 'all' lists only companions of that category; an empty search adds no other condition. */
  lemma EmptySearchIsCategory(companions: seq<Companion>, category: string)
    ensures forall c :: c in Filtered(companions, category, "") <==>
      c in companions && (category == "all" || c.category == category)
  {
    forall c | c in companions ensures Contains(Lower(c.name), Lower("")) {
      assert Lower("") == "";
      ContainsEmpty(Lower(c.name));
    }
  }
}
