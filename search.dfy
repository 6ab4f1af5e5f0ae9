/** The search state (src/context/SearchContext.tsx): the query as typed,
    the products it finds and whether a search is in progress. */
module Search {
  import opened Catalog
  import Text
  import Seqs

  /** A product is found when its lowered name or lowered category
      contains the lowered query. */
  predicate Found(query: string, p: Product) {
    Text.Contains(Text.Lower(p.name), Text.Lower(query))
    || Text.Contains(Text.Lower(p.category), Text.Lower(query))
  }

  function Finder(query: string): Product -> bool {
    (p: Product) => Found(query, p)
  }

  /** What a query shows: nothing for a blank query, otherwise the found
      products in catalogue order. */
  function Results(catalogue: seq<Product>, query: string): (r: seq<Product>)
    ensures Text.IsBlank(query) ==> r == []
    ensures forall i :: 0 <= i < |r| ==> r[i] in catalogue && Found(query, r[i])
  {
    if Text.IsBlank(query) then [] else Seqs.Filter(Finder(query), catalogue)
  }

  /** A blank query finds nothing; any other query finds exactly the
      products whose name or category contains it up to case, keeping
      their catalogue order. */
  lemma ResultsSpec(catalogue: seq<Product>, query: string)
    ensures Text.IsBlank(query) ==> Results(catalogue, query) == []
    ensures !Text.IsBlank(query) ==>
              (forall i :: 0 <= i < |Results(catalogue, query)| ==>
                 Results(catalogue, query)[i] in catalogue && Found(query, Results(catalogue, query)[i]))
              && (forall i :: 0 <= i < |catalogue| && Found(query, catalogue[i]) ==>
                    catalogue[i] in Results(catalogue, query))
              && Seqs.IsSubsequence(Results(catalogue, query), catalogue)
  {
    Seqs.FilterIsSubsequence(Finder(query), catalogue);
  }

  /** A query that differs only in letter case finds the same products. */
  lemma ResultsIgnoreCase(catalogue: seq<Product>, query: string)
    ensures !Text.IsBlank(query) ==> Results(catalogue, query) == Results(catalogue, Text.Lower(query))
  {
    Text.LowerLaws(query, []);
    if !Text.IsBlank(query) {
      Text.BlankIffAllWhitespace(query);
      Text.BlankIffAllWhitespace(Text.Lower(query));
      assert !Text.IsBlank(Text.Lower(query)) by {
        var i :| 0 <= i < |query| && !Text.IsWhitespace(query[i]);
        assert Text.LowerChar(query[i]) == query[i] || Text.IsUpper(query[i]);
      }
      Seqs.FilterCongruent(Finder(query), Finder(Text.Lower(query)), catalogue);
    }
  }

  class SearchState {
    const catalogue: seq<Product>
    var searchQuery: string
    var searchResults: seq<Product>
    var isSearching: bool

    /** The results and the searching flag always agree with the query. */
    predicate Valid()
      reads this
    {
      searchResults == Results(catalogue, searchQuery)
      && (isSearching <==> !Text.IsBlank(searchQuery))
    }

    constructor (catalogue: seq<Product>)
      ensures Valid()
      ensures this.catalogue == catalogue && searchQuery == [] && searchResults == [] && !isSearching
    {
      this.catalogue := catalogue;
      searchQuery := [];
      searchResults := [];
      isSearching := false;
    }

    /** `handleSearch`: the query is stored as typed; a blank one clears
        the results and the flag, any other one searches. */
    method HandleSearch(query: string)
      modifies this
      ensures Valid()
      ensures searchQuery == query
      ensures searchResults == Results(catalogue, query)
      ensures isSearching <==> !Text.IsBlank(query)
    {
      searchQuery := query;
      if Text.IsBlank(query) {
        searchResults := [];
        isSearching := false;
        return;
      }
      isSearching := true;
      searchResults := Seqs.Filter(Finder(query), catalogue);
    }

    /** `clearSearch` */
    method ClearSearch()
      modifies this
      ensures Valid()
      ensures searchQuery == [] && searchResults == [] && !isSearching
    {
      searchQuery := [];
      searchResults := [];
      isSearching := false;
    }
  }
}
