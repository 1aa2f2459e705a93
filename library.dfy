/** app/library/page.tsx: which saved mixes the library page lists for a
    search query and a category chip. */
module Library {
  import opened Types
  import opened Text
  import opened Lists

  /** The category chips (components/library/CategoryFilters.tsx:5). */
  datatype FilterCategory = All | Focus | Sleep | Nature | Favorites
  {
    /** The chip's label, which is also the value compared with tags. */
    function Name(): string
    {
      match this
      case All => "All"
      case Focus => "Focus"
      case Sleep => "Sleep"
      case Nature => "Nature"
      case Favorites => "Favorites"
    }
  }

  /** The search test (page.tsx:36-41): an empty query matches; otherwise
      the lower-cased query must occur in the lower-cased mix name or in the
      lower-cased sound name of some layer. */
  predicate MatchesSearch(mix: Mix, query: string)
  {
    query == ""
    || Contains(ToLower(mix.name), ToLower(query))
    || exists i :: 0 <= i < |mix.layers| && Contains(ToLower(mix.layers[i].soundName), ToLower(query))
  }

  /** The category test (page.tsx:44-46): `All` matches; otherwise some tag
      must equal the chip's label, ignoring case. */
  predicate MatchesCategory(mix: Mix, category: FilterCategory)
  {
    category == All || exists i :: 0 <= i < |mix.tags| && ToLower(mix.tags[i]) == ToLower(category.Name())
  }

  /** The predicate handed to `mixes.filter` (page.tsx:34-49). */
  function Shown(query: string, category: FilterCategory): Mix -> bool
  {
    (m: Mix) => MatchesSearch(m, query) && MatchesCategory(m, category)
  }

  /** `filteredMixes` (page.tsx:33-50): nothing before the page has
      hydrated, then the mixes passing both tests, in store order. */
  function FilteredMixes(isHydrated: bool, mixes: seq<Mix>, query: string, category: FilterCategory): (r: seq<Mix>)
    ensures !isHydrated ==> r == []
    ensures forall i :: 0 <= i < |r| ==>
      r[i] in mixes && MatchesSearch(r[i], query) && MatchesCategory(r[i], category)
    ensures isHydrated ==> forall i ::
      (0 <= i < |mixes| && MatchesSearch(mixes[i], query) && MatchesCategory(mixes[i], category)) ==> mixes[i] in r
  {
    if isHydrated then Filter(mixes, Shown(query, category)) else []
  }

  /** A mix is listed exactly when the page has hydrated, the mix is in the
      store and it passes both tests. */
  lemma ListedIff(isHydrated: bool, mixes: seq<Mix>, query: string, category: FilterCategory, mix: Mix)
    ensures mix in FilteredMixes(isHydrated, mixes, query, category) <==>
      isHydrated && mix in mixes && MatchesSearch(mix, query) && MatchesCategory(mix, category)
  {
    var r := FilteredMixes(isHydrated, mixes, query, category);
    if mix in r {
      var i :| 0 <= i < |r| && r[i] == mix;
    }
    if isHydrated && mix in mixes && MatchesSearch(mix, query) && MatchesCategory(mix, category) {
      var i :| 0 <= i < |mixes| && mixes[i] == mix;
    }
  }

  /** The listed mixes keep the store's order: they are a subsequence of it. */
  lemma ListedInOrder(isHydrated: bool, mixes: seq<Mix>, query: string, category: FilterCategory)
    ensures IsSubsequence(FilteredMixes(isHydrated, mixes, query, category), mixes)
  {
    if isHydrated {
      FilterIsSubsequence(mixes, Shown(query, category));
    }
  }

  /** With no query and the `All` chip, the hydrated page lists every mix. */
  lemma NoFilterListsAll(mixes: seq<Mix>)
    ensures FilteredMixes(true, mixes, "", All) == mixes
  {
    FilterKeepsAll(mixes, Shown("", All));
  }

  /** Lower-casing twice is lower-casing once. */
  lemma ToLowerIdempotent(s: string)
    ensures ToLower(ToLower(s)) == ToLower(s)
  {
    assert forall i :: 0 <= i < |s| ==> ToLower(ToLower(s))[i] == ToLower(s)[i];
  }

  /** The search ignores the case of the query: a query and its lower-cased
      form list the same mixes. */
  lemma SearchIgnoresCase(mix: Mix, query: string)
    ensures MatchesSearch(mix, query) <==> MatchesSearch(mix, ToLower(query))
  {
    ToLowerIdempotent(query);
  }
}
