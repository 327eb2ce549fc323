/** The find-farms page: a location search over the farm catalogue, with
    a blank-query guard, an "all" wildcard and a reset. */
module FindFarms {
  import opened Text
  import Seqs

  datatype Farm = Farm(
    id: string,
    name: string,
    location: string,
    distance: string,
    description: string,
    specialties: seq<string>,
    rating: real,
    contact: string)

  /** The location, name and wildcard tests of the filter: the lower-cased
      query occurs in the lower-cased location or name, or the lower-cased
      query contains "all". */
  predicate MatchesLocationOrName(farm: Farm, query: string) {
    var q := ToLower(query);
    Contains(ToLower(farm.location), q) || Contains(ToLower(farm.name), q) || Contains(q, "all")
  }

  /** The filter predicate as written: those tests, or a query that trims
      to nothing, which is a query made only of white space. */
  function FarmMatches(farm: Farm, query: string): (b: bool)
    ensures b <==> MatchesLocationOrName(farm, query) || IsBlank(query)
  {
    MatchesLocationOrName(farm, query) || Trim(query) == ""
  }

  /** The farms a search shows, in catalogue order. */
  function SearchResults(farms: seq<Farm>, query: string): (r: seq<Farm>)
    ensures Seqs.IsSubsequence(r, farms)
    ensures forall i :: 0 <= i < |r| ==> FarmMatches(r[i], query)
    ensures forall i :: 0 <= i < |farms| && FarmMatches(farms[i], query) ==> farms[i] in r
    ensures forall f :: multiset(r)[f] == if FarmMatches(f, query) then multiset(farms)[f] else 0
  {
    var keep := f => FarmMatches(f, query);
    Seqs.FilterIsSubsequence(farms, keep);
    Seqs.Filter(farms, keep)
  }

  /** The blank-query disjunct never decides a search that gets as far as
      filtering, because a blank query has already returned. */
  lemma BlankDisjunctIsDead(farms: seq<Farm>, query: string)
    requires Trim(query) != ""
    ensures SearchResults(farms, query) == Seqs.Filter(farms, f => MatchesLocationOrName(f, query))
  {
    Seqs.FilterCongruent(farms, f => FarmMatches(f, query), f => MatchesLocationOrName(f, query));
  }

  /** A query containing "all" in any letter case, anywhere (a query such
      as "Tallahassee" too), shows every farm. */
  lemma AllWildcardShowsEverything(farms: seq<Farm>, query: string)
    requires Contains(ToLower(query), "all")
    ensures SearchResults(farms, query) == farms
  {
    Seqs.FilterKeepsAll(farms, f => FarmMatches(f, query));
  }

  /** A farm whose name is typed in full, in any letter case, is found. */
  lemma NameSearchFindsFarm(farms: seq<Farm>, i: nat, query: string)
    requires i < |farms| && ToLower(query) == ToLower(farms[i].name)
    ensures farms[i] in SearchResults(farms, query)
  {
  }

  class FindFarmsPage {
    var searchLocation: string
    var isLoading: bool
    var farms: seq<Farm>
    var hasSearched: bool

    constructor ()
      ensures searchLocation == "" && !isLoading && farms == [] && !hasSearched
    {
      searchLocation, isLoading, farms, hasSearched := "", false, [], false;
    }

    /** The search box's `onChange`. */
    method SetSearchLocation(text: string)
      modifies this`searchLocation
      ensures searchLocation == text
    {
      searchLocation := text;
    }

    /** `handleSearch` over `catalogue`, the wait taken as one step;
        `fails` selects the `catch` branch, kept as written although that
        timer never rejects. A blank query changes nothing. */
    method HandleSearch(catalogue: seq<Farm>, fails: bool)
      modifies this`isLoading, this`hasSearched, this`farms
      ensures IsBlank(searchLocation) ==>
                isLoading == old(isLoading) && hasSearched == old(hasSearched) && farms == old(farms)
      ensures !IsBlank(searchLocation) ==> hasSearched && !isLoading
      ensures !IsBlank(searchLocation) && !fails ==> farms == SearchResults(catalogue, searchLocation)
      ensures !IsBlank(searchLocation) && fails ==> farms == []
    {
      if Trim(searchLocation) == "" {
        return;
      }
      isLoading := true;
      hasSearched := true;
      if !fails {
        farms := SearchResults(catalogue, searchLocation);
      } else {
        farms := [];
      }
      isLoading := false;
    }

    /** "Try Another Search". */
    method Reset()
      modifies this`searchLocation, this`hasSearched, this`farms
      ensures searchLocation == "" && !hasSearched && farms == []
    {
      searchLocation := "";
      hasSearched := false;
      farms := [];
    }
  }
}
