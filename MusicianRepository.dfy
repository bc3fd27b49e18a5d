/** What `MusicianRepository` does with the musicians it fetched: the local search and the
    distinct, sorted genre and category lists. The fetch itself (the 500 most up-voted
    musicians) is the input `fetched`; when it fails the repository fetches nothing, so
    `fetched` is empty. */
module MusicianRepository {
  import opened Text
  import opened Lists
  import opened Sorting
  import opened Musicians

  const SEARCH_LIMIT: nat := 50

  /** The lower-cased name or genre contains the lower-cased query. */
  predicate Matches(m: Musician, lowerQuery: string) {
    Contains(Lower(m.name), lowerQuery) || Contains(Lower(m.genre), lowerQuery)
  }

  function MatchesQuery(lowerQuery: string): Musician -> bool {
    m => Matches(m, lowerQuery)
  }

  /** `searchMusicians`: the first 50 matching musicians, in fetched order. */
  function SearchMusicians(fetched: seq<Musician>, query: string): (r: seq<Musician>)
    ensures |r| <= SEARCH_LIMIT
    ensures IsSubsequence(r, fetched)
    ensures forall m | m in r :: Matches(m, Lower(query))
    ensures |r| < SEARCH_LIMIT ==> forall m | m in fetched && Matches(m, Lower(query)) :: m in r
    ensures var matching := Filter(fetched, MatchesQuery(Lower(query)));
            r <= matching && |r| == if |matching| < SEARCH_LIMIT then |matching| else SEARCH_LIMIT
  {
    var matching := Filter(fetched, MatchesQuery(Lower(query)));
    FilterIsSubsequence(fetched, MatchesQuery(Lower(query)));
    TakeOfSubsequence(matching, fetched, SEARCH_LIMIT);
    var r := Take(matching, SEARCH_LIMIT);
    assert forall m | m in r :: m in matching && MatchesQuery(Lower(query))(m) by {
      forall m | m in r ensures m in matching {
        var i :| 0 <= i < |r| && r[i] == m;
        assert matching[i] == m;
      }
    }
    r
  }

  /** An empty query matches everyone: the first 50 fetched musicians. */
  lemma SearchEmptyQuery(fetched: seq<Musician>)
    ensures SearchMusicians(fetched, "") == Take(fetched, SEARCH_LIMIT)
  {
    assert Lower("") == "";
    forall m | m in fetched ensures MatchesQuery("")(m) {
      ContainsEmpty(Lower(m.name));
    }
    FilterAll(fetched, MatchesQuery(""));
  }

  function NonEmptyText(): string -> bool {
    t => t != ""
  }

  /** `filter { it.isNotEmpty() }.distinct().sorted()`. */
  function DistinctNonEmptySorted(s: seq<string>): (r: seq<string>)
    ensures StrictlyAscending(r)
    ensures forall t :: t in r <==> t in s && t != ""
  {
    var kept := Distinct(Filter(s, NonEmptyText()));
    SortDistinctStrictlyAscending(kept);
    var r := SortStrings(kept);
    assert forall t :: t in r <==> t in multiset(kept);
    r
  }

  function Genres(fetched: seq<Musician>): (r: seq<string>)
    ensures |r| == |fetched| && forall i | 0 <= i < |fetched| :: r[i] == fetched[i].genre
  {
    seq(|fetched|, i requires 0 <= i < |fetched| => fetched[i].genre)
  }

  /** `getDistinctGenres`: every non-empty genre once, in ascending order. */
  function GetDistinctGenres(fetched: seq<Musician>): (r: seq<string>)
    ensures StrictlyAscending(r)
    ensures "" !in r
    ensures forall m | m in fetched && m.genre != "" :: m.genre in r
    ensures forall g | g in r :: exists m :: m in fetched && m.genre == g
  {
    var r := DistinctNonEmptySorted(Genres(fetched));
    assert forall m | m in fetched :: m.genre in Genres(fetched);
    r
  }

  function CategoryLists(fetched: seq<Musician>): (r: seq<seq<string>>)
    ensures |r| == |fetched| && forall i | 0 <= i < |fetched| :: r[i] == fetched[i].categories
  {
    seq(|fetched|, i requires 0 <= i < |fetched| => fetched[i].categories)
  }

  /** `getDistinctCategories`: every non-empty category of any musician once, ascending. */
  function GetDistinctCategories(fetched: seq<Musician>): (r: seq<string>)
    ensures StrictlyAscending(r)
    ensures "" !in r
    ensures forall m, c | m in fetched && c in m.categories && c != "" :: c in r
    ensures forall c | c in r :: exists m :: m in fetched && c in m.categories
  {
    var lists := CategoryLists(fetched);
    var r := DistinctNonEmptySorted(Flatten(lists));
    assert forall m | m in fetched :: m.categories in lists;
    r
  }

  /** Nothing fetched (the fetch failed): no search results, genres or categories. */
  lemma NothingFetched(query: string)
    ensures SearchMusicians([], query) == []
    ensures GetDistinctGenres([]) == [] && GetDistinctCategories([]) == []
  {
  }
}
