/** The home screen's state (`HomeViewModel`): its four feeds and the genre rails built from
    the musicians fetched for grouping. */
module HomeViewModel {
  import opened Wrappers
  import opened Lists
  import opened Sorting
  import opened Musicians
  import opened MusicianRepository

  const RAIL_LENGTH: nat := 10
  const RAIL_COUNT: nat := 5

  /** A genre and its musicians. */
  type Rail = (string, seq<Musician>)

  function HasGenre(g: string): Musician -> bool {
    (m: Musician) => m.genre == g
  }

  /** `groupBy` adding one musician: to its genre's group if there is one, else to a new
      group at the end. */
  function AddToGroups(groups: seq<Rail>, m: Musician): seq<Rail> {
    if groups == [] then [(m.genre, [m])]
    else if groups[0].0 == m.genre then [(groups[0].0, groups[0].1 + [m])] + groups[1..]
    else [groups[0]] + AddToGroups(groups[1..], m)
  }

  /** `groupBy { it.genre }`, into a map that keeps insertion order. */
  function GroupByGenre(s: seq<Musician>): seq<Rail> {
    if s == [] then [] else AddToGroups(GroupByGenre(s[..|s| - 1]), s[|s| - 1])
  }

  /** The grouping described directly: one group per genre, in order of first appearance,
      holding that genre's musicians in input order. */
  function Grouped(s: seq<Musician>): (r: seq<Rail>)
    ensures |r| == |Distinct(Genres(s))|
    ensures forall i | 0 <= i < |r| :: r[i] == (Distinct(Genres(s))[i], Filter(s, HasGenre(Distinct(Genres(s))[i])))
  {
    var keys := Distinct(Genres(s));
    seq(|keys|, i requires 0 <= i < |keys| => (keys[i], Filter(s, HasGenre(keys[i]))))
  }

  lemma {:induction false} AddToExisting(groups: seq<Rail>, m: Musician, i: nat)
    requires i < |groups| && groups[i].0 == m.genre
    requires forall j | 0 <= j < i :: groups[j].0 != m.genre
    ensures AddToGroups(groups, m) == groups[i := (groups[i].0, groups[i].1 + [m])]
  {
    if i > 0 {
      AddToExisting(groups[1..], m, i - 1);
    }
  }

  lemma {:induction false} AddToNew(groups: seq<Rail>, m: Musician)
    requires forall j | 0 <= j < |groups| :: groups[j].0 != m.genre
    ensures AddToGroups(groups, m) == groups + [(m.genre, [m])]
  {
    if groups != [] {
      AddToNew(groups[1..], m);
    }
  }

  lemma FilterLast(s: seq<Musician>, k: string)
    requires s != []
    ensures Filter(s, HasGenre(k)) ==
            Filter(s[..|s| - 1], HasGenre(k)) + (if s[|s| - 1].genre == k then [s[|s| - 1]] else [])
  {
  }

  /** Adding the last musician, of a genre seen before, to the grouping of the ones before
      it gives the grouping of all of them. */
  lemma GroupedStepExisting(s: seq<Musician>)
    requires s != [] && s[|s| - 1].genre in Distinct(Genres(s[..|s| - 1]))
    ensures AddToGroups(Grouped(s[..|s| - 1]), s[|s| - 1]) == Grouped(s)
  {
    var init, last := s[..|s| - 1], s[|s| - 1];
    var g := Grouped(init);
    var keys := Distinct(Genres(init));
    assert Genres(s)[..|s| - 1] == Genres(init);
    assert Distinct(Genres(s)) == keys;
    var i := FirstIndex(keys, last.genre);
    AddToExisting(g, last, i);
    var added := g[i := (g[i].0, g[i].1 + [last])];
    var r := Grouped(s);
    assert |r| == |added|;
    forall j | 0 <= j < |r| ensures r[j] == added[j] {
      FilterLast(s, keys[j]);
    }
  }

  /** The same for a musician whose genre is new: it opens a group at the end. */
  lemma GroupedStepNew(s: seq<Musician>)
    requires s != [] && s[|s| - 1].genre !in Distinct(Genres(s[..|s| - 1]))
    ensures AddToGroups(Grouped(s[..|s| - 1]), s[|s| - 1]) == Grouped(s)
  {
    var init, last := s[..|s| - 1], s[|s| - 1];
    var g := Grouped(init);
    var keys := Distinct(Genres(init));
    assert Genres(s)[..|s| - 1] == Genres(init);
    assert Distinct(Genres(s)) == keys + [last.genre];
    AddToNew(g, last);
    var added := g + [(last.genre, [last])];
    var r := Grouped(s);
    assert |r| == |added|;
    forall j | 0 <= j < |keys| ensures r[j] == added[j] {
      FilterLast(s, keys[j]);
    }
    FilterLast(s, last.genre);
    forall m | m in init ensures !HasGenre(last.genre)(m) {
      var k :| 0 <= k < |init| && init[k] == m;
      assert Genres(init)[k] == m.genre;
    }
    FilterNone(init, HasGenre(last.genre));
    assert Distinct(Genres(s))[|keys|] == last.genre;
    assert Filter(s, HasGenre(last.genre)) == [last];
    assert r[|keys|] == added[|keys|];
    assert forall j | 0 <= j < |r| :: r[j] == added[j];
    assert r == added;
  }

  /** The fold agrees with the direct description. */
  lemma {:induction false} GroupByGenreIsGrouped(s: seq<Musician>)
    ensures GroupByGenre(s) == Grouped(s)
  {
    if s != [] {
      GroupByGenreIsGrouped(s[..|s| - 1]);
      if s[|s| - 1].genre in Distinct(Genres(s[..|s| - 1])) {
        GroupedStepExisting(s);
      } else {
        GroupedStepNew(s);
      }
    }
  }

  function KeyNonEmpty(): Rail -> bool {
    (r: Rail) => r.0 != ""
  }

  function RailSize(): Rail -> nat {
    (r: Rail) => |r.1|
  }

  function RailKeys(rs: seq<Rail>): (k: seq<string>)
    ensures |k| == |rs| && forall i | 0 <= i < |rs| :: k[i] == rs[i].0
  {
    seq(|rs|, i requires 0 <= i < |rs| => rs[i].0)
  }

  /** `filterKeys` keeps the keys that pass, in order. */
  lemma {:induction false} KeysOfKept(groups: seq<Rail>)
    ensures RailKeys(Filter(groups, KeyNonEmpty())) == Filter(RailKeys(groups), NonEmptyText())
  {
    if groups != [] {
      var init, last := groups[..|groups| - 1], groups[|groups| - 1];
      KeysOfKept(init);
      assert RailKeys(groups)[..|groups| - 1] == RailKeys(init);
      var kept := Filter(init, KeyNonEmpty());
      assert RailKeys(kept + [last]) == RailKeys(kept) + [last.0];
    }
  }

  /** `groupBy` then `filterKeys { it.isNotEmpty() }` keeps one group per non-empty genre,
      in order of first appearance. */
  lemma KeptKeys(all: seq<Musician>)
    ensures RailKeys(Filter(GroupByGenre(all), KeyNonEmpty())) == Filter(Distinct(Genres(all)), NonEmptyText())
  {
    GroupByGenreIsGrouped(all);
    KeysOfKept(GroupByGenre(all));
    assert RailKeys(Grouped(all)) == Distinct(Genres(all));
  }

  /** Each kept group holds all of its genre's musicians. */
  lemma KeptValues(all: seq<Musician>)
    ensures forall c | c in Filter(GroupByGenre(all), KeyNonEmpty()) :: c.1 == Filter(all, HasGenre(c.0))
  {
    GroupByGenreIsGrouped(all);
    var grouped := Grouped(all);
    forall c | c in Filter(grouped, KeyNonEmpty()) ensures c.1 == Filter(all, HasGenre(c.0)) {
      assert c in grouped;
      var i :| 0 <= i < |grouped| && grouped[i] == c;
    }
  }

  /** `mapValues { take(10) }`: the same keys, each group cut to its first ten. */
  function CapEach(groups: seq<Rail>): (r: seq<Rail>)
    ensures RailKeys(r) == RailKeys(groups)
    ensures forall i | 0 <= i < |r| :: r[i] == (groups[i].0, Take(groups[i].1, RAIL_LENGTH))
  {
    seq(|groups|, i requires 0 <= i < |groups| => (groups[i].0, Take(groups[i].1, RAIL_LENGTH)))
  }

  /** The non-empty genres' groups cut to their first ten musicians, in order of first
      appearance. */
  function Capped(all: seq<Musician>): (r: seq<Rail>)
    ensures RailKeys(r) == Filter(Distinct(Genres(all)), NonEmptyText())
    ensures forall c | c in r :: c.1 == Take(Filter(all, HasGenre(c.0)), RAIL_LENGTH)
  {
    var kept := Filter(GroupByGenre(all), KeyNonEmpty());
    KeptKeys(all);
    KeptValues(all);
    var r := CapEach(kept);
    assert forall c | c in r :: c.1 == Take(Filter(all, HasGenre(c.0)), RAIL_LENGTH) by {
      forall c | c in r ensures c.1 == Take(Filter(all, HasGenre(c.0)), RAIL_LENGTH) {
        var i :| 0 <= i < |r| && r[i] == c;
        assert kept[i] in kept;
      }
    }
    r
  }

  /** The genre rails of `loadContent`: group by genre, drop the empty genre, keep ten
      musicians per genre, order by that size from largest to smallest (ties in order of first
      appearance) and keep five. */
  function GenreRails(all: seq<Musician>): (rails: seq<Rail>)
    ensures |rails| <= RAIL_COUNT
    ensures Descending(rails, RailSize())
  {
    var sorted := SortByDescending(Capped(all), RailSize());
    assert Descending(Take(sorted, RAIL_COUNT), RailSize()) by {
      assert forall i | 0 <= i < |Take(sorted, RAIL_COUNT)| :: Take(sorted, RAIL_COUNT)[i] == sorted[i];
    }
    Take(sorted, RAIL_COUNT)
  }

  /** Every rail is one of the capped groups. */
  lemma RailsAreGroups(all: seq<Musician>)
    ensures forall r | r in GenreRails(all) :: r in Capped(all)
  {
    var capped := Capped(all);
    var sorted := SortByDescending(capped, RailSize());
    SortByDescendingPermutes(capped, RailSize());
    forall r | r in GenreRails(all) ensures r in capped {
      var i :| 0 <= i < |GenreRails(all)| && GenreRails(all)[i] == r;
      assert sorted[i] == r;
      assert r in multiset(sorted);
    }
  }

  /** A capped group is a non-empty genre of the input with its first ten musicians, in
      input order, all of that genre. */
  lemma GroupContent(all: seq<Musician>, r: Rail)
    requires r in Capped(all)
    ensures r.0 != "" && r.0 in Genres(all)
    ensures r.1 == Take(Filter(all, HasGenre(r.0)), RAIL_LENGTH)
    ensures IsSubsequence(r.1, all)
    ensures forall m | m in r.1 :: m.genre == r.0
  {
    var capped := Capped(all);
    var i :| 0 <= i < |capped| && capped[i] == r;
    assert RailKeys(capped)[i] == r.0;
    assert r.0 in Filter(Distinct(Genres(all)), NonEmptyText());
    var matching := Filter(all, HasGenre(r.0));
    FilterIsSubsequence(all, HasGenre(r.0));
    TakeOfSubsequence(matching, all, RAIL_LENGTH);
    FirstOfGenre(all, r.0);
  }

  /** The first ten musicians of a genre are all of that genre. */
  lemma FirstOfGenre(all: seq<Musician>, g: string)
    ensures forall m | m in Take(Filter(all, HasGenre(g)), RAIL_LENGTH) :: m.genre == g
  {
    var matching := Filter(all, HasGenre(g));
    var first := Take(matching, RAIL_LENGTH);
    forall m | m in first ensures m.genre == g {
      var k :| 0 <= k < |first| && first[k] == m;
      assert matching[k] == m;
      assert HasGenre(g)(m);
    }
  }

  /** Each rail is such a group. */
  lemma RailContents(all: seq<Musician>, r: Rail)
    requires r in GenreRails(all)
    ensures r.0 != "" && r.0 in Genres(all)
    ensures r.1 == Take(Filter(all, HasGenre(r.0)), RAIL_LENGTH)
    ensures IsSubsequence(r.1, all)
    ensures forall m | m in r.1 :: m.genre == r.0
  {
    RailsAreGroups(all);
    GroupContent(all, r);
  }

  /** No genre has two rails. */
  lemma RailKeysDistinct(all: seq<Musician>)
    ensures NoDups(RailKeys(GenreRails(all)))
  {
    var capped := Capped(all);
    var sorted := SortByDescending(capped, RailSize());
    var rails := GenreRails(all);
    FilterNoDups(Distinct(Genres(all)), NonEmptyText());
    assert NoDups(capped) by {
      forall i, j | 0 <= i < j < |capped| ensures capped[i] != capped[j] {
        assert RailKeys(capped)[i] != RailKeys(capped)[j];
      }
    }
    NoDupsCounts(capped);
    SortByDescendingPermutes(capped, RailSize());
    RailsAreGroups(all);
    forall i, j | 0 <= i < j < |rails| ensures rails[i].0 != rails[j].0 {
      CountAtLeastTwo(sorted, i, j);
      assert rails[i] == sorted[i] && rails[j] == sorted[j];
      assert rails[i] in capped && rails[j] in capped;
    }
  }

  /** Among rails of one size the order is that of first appearance: they are the first
      groups of that size, in the order the groups came. */
  lemma RailTiesKeepOrder(all: seq<Musician>, size: nat)
    ensures Filter(GenreRails(all), KeyIs(RailSize(), size)) <= Filter(Capped(all), KeyIs(RailSize(), size))
  {
    var p := KeyIs(RailSize(), size);
    var sorted := SortByDescending(Capped(all), RailSize());
    var rails := GenreRails(all);
    SortByDescendingStable(Capped(all), RailSize(), size);
    var rest := sorted[|rails|..];
    assert sorted == rails + rest;
    FilterConcat(rails, rest, p);
    var a, b := Filter(rails, p), Filter(rest, p);
    assert Filter(sorted, p) == a + b;
    assert a <= a + b;
  }

  /** The rails are the largest groups: a non-empty genre without a rail means five rails,
      none smaller than that genre's group. */
  lemma RailsAreLargest(all: seq<Musician>, g: string)
    requires g in Genres(all) && g != "" && g !in RailKeys(GenreRails(all))
    ensures |GenreRails(all)| == RAIL_COUNT
    ensures forall r | r in GenreRails(all) :: |r.1| >= |Take(Filter(all, HasGenre(g)), RAIL_LENGTH)|
  {
    var capped := Capped(all);
    var sorted := SortByDescending(capped, RailSize());
    var rails := GenreRails(all);
    var c := (g, Take(Filter(all, HasGenre(g)), RAIL_LENGTH));
    assert g in RailKeys(capped);
    var i :| 0 <= i < |capped| && capped[i].0 == g;
    assert capped[i] == c;
    SortByDescendingSameElements(capped, RailSize(), c);
    var k :| 0 <= k < |sorted| && sorted[k] == c;
    assert forall j | 0 <= j < |rails| :: sorted[j] == rails[j] && rails[j].0 == RailKeys(rails)[j];
    assert k >= |rails|;
    forall r | r in rails ensures |r.1| >= |c.1| {
      var j :| 0 <= j < |rails| && rails[j] == r;
      assert sorted[j] == r;
    }
  }

  /** The screen state: loading, the four feeds with the rails, or an error message. */
  datatype HomeUiState =
    | Loading
    | Success(highlighted: seq<Musician>, trending: seq<Musician>, verified: seq<Musician>,
              genreRails: seq<Rail>)
    | Error(message: string)

  /** What the four repository calls of `loadContent` return, in call order. */
  datatype Feeds = Feeds(highlighted: seq<Musician>, trending: seq<Musician>,
                         verified: seq<Musician>, forGrouping: seq<Musician>)

  const UNKNOWN_ERROR: string := "Unknown error occurred"

  /** The state a load ends in. `Failure(message)` stands for an exception escaping the
      `try` block, with its (possibly null) message. */
  function Outcome(fetched: Result<Feeds, Option<string>>): (s: HomeUiState)
    ensures s != Loading
    ensures s.Success? <==> fetched.Success?
    ensures s.Success? ==>
      && s.highlighted == fetched.value.highlighted
      && s.trending == fetched.value.trending
      && s.verified == fetched.value.verified
      && s.genreRails == GenreRails(fetched.value.forGrouping)
    ensures fetched == Failure(None) ==> s == Error(UNKNOWN_ERROR)
    ensures forall msg :: fetched == Failure(Some(msg)) ==> s == Error(msg)
  {
    match fetched
    case Success(f) => HomeUiState.Success(f.highlighted, f.trending, f.verified, GenreRails(f.forGrouping))
    case Failure(msg) => Error(msg.GetOr(UNKNOWN_ERROR))
  }

  /** A successful load shows at most five rails, under distinct non-empty genres of the
      grouped musicians, largest first, each the first ten musicians of its genre. */
  lemma SuccessRails(fetched: Result<Feeds, Option<string>>)
    requires Outcome(fetched).Success?
    ensures |Outcome(fetched).genreRails| <= RAIL_COUNT
    ensures NoDups(RailKeys(Outcome(fetched).genreRails))
    ensures Descending(Outcome(fetched).genreRails, RailSize())
    ensures forall r | r in Outcome(fetched).genreRails ::
      && r.0 != "" && r.0 in Genres(fetched.value.forGrouping)
      && r.1 == Take(Filter(fetched.value.forGrouping, HasGenre(r.0)), RAIL_LENGTH)
  {
    var all := fetched.value.forGrouping;
    RailKeysDistinct(all);
    forall r | r in GenreRails(all)
      ensures r.0 != "" && r.0 in Genres(all) && r.1 == Take(Filter(all, HasGenre(r.0)), RAIL_LENGTH)
    {
      RailContents(all, r);
    }
  }

  /** The home screen's view model. `history` lists every value written to the state flow,
      oldest first; `uiState` is the current one. A load runs to completion before the next
      call. */
  class HomeViewModel {
    var uiState: HomeUiState
    var history: seq<HomeUiState>

    /** The state flow holds the last value written to it. */
    predicate Valid()
      reads this
    {
      history != [] && uiState == history[|history| - 1]
    }

    /** Creation starts in Loading and runs the first load. */
    constructor(fetched: Result<Feeds, Option<string>>)
      ensures Valid()
      ensures history == [Loading, Loading, Outcome(fetched)]
    {
      uiState := Loading;
      history := [Loading];
      new;
      LoadContent(fetched);
    }

    /** `loadContent`: show Loading, then the feeds and rails, or the exception's message. */
    method LoadContent(fetched: Result<Feeds, Option<string>>)
      modifies this
      ensures Valid()
      ensures uiState == Outcome(fetched)
      ensures history == old(history) + [Loading, uiState]
    {
      uiState := Loading;
      history := history + [uiState];
      match fetched {
        case Success(f) =>
          var rails := GenreRails(f.forGrouping);
          uiState := HomeUiState.Success(f.highlighted, f.trending, f.verified, rails);
        case Failure(msg) =>
          uiState := Error(msg.GetOr(UNKNOWN_ERROR));
      }
      history := history + [uiState];
    }

    /** `retry` runs the load again, whatever the current state. */
    method Retry(fetched: Result<Feeds, Option<string>>)
      modifies this
      ensures Valid()
      ensures uiState == Outcome(fetched)
      ensures history == old(history) + [Loading, uiState]
    {
      LoadContent(fetched);
    }
  }
}
