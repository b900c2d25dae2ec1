/**
 * The listing widgets of the media library: each concatenates the lists of
 * its sources, sorts them on one field and cuts the result to the widget
 * limit; two widgets append a second list to the in-progress list, leaving
 * out what it already shows; and the genre browser keeps the movie genres that
 * tv shows share.
 */
module Listings {
  import opened Items
  import opened Sorting

  /** `recent()`: recently added movies, albums, songs, episodes and recordings, newest first. */
  function Recent(movies: seq<Item>, albums: seq<Item>, songs: seq<Item>, episodes: seq<Item>,
                  recordings: seq<Item>, limit: int): (r: seq<Item>)
    ensures Ranked(DateAdded, true, movies + albums + songs + episodes + recordings, limit, r)
  {
    SortAndTruncate(DateAdded, true, movies + albums + songs + episodes + recordings, limit)
  }

  /** `recentshowsandmovies()`: recently added movies and tv shows, newest first. */
  function RecentShowsAndMovies(movies: seq<Item>, tvshows: seq<Item>, limit: int): (r: seq<Item>)
    ensures Ranked(DateAdded, true, movies + tvshows, limit, r)
  {
    SortAndTruncate(DateAdded, true, movies + tvshows, limit)
  }

  /** `inprogress()`: in-progress movies, episodes and recordings, last played first. */
  function InProgress(movies: seq<Item>, episodes: seq<Item>, recordings: seq<Item>, limit: int): (r: seq<Item>)
    ensures Ranked(LastPlayed, true, movies + episodes + recordings, limit, r)
  {
    SortAndTruncate(LastPlayed, true, movies + episodes + recordings, limit)
  }

  /**
   * `inprogressshowsandmovies()`, and `inprogressepisodesandmovies()`, which is
   * the same expression: in-progress movies and episodes, last played first.
   */
  function InProgressShowsAndMovies(movies: seq<Item>, episodes: seq<Item>, limit: int): (r: seq<Item>)
    ensures Ranked(LastPlayed, true, movies + episodes, limit, r)
  {
    SortAndTruncate(LastPlayed, true, movies + episodes, limit)
  }

  /** `inprogressnextshowsandmovies()`: in-progress movies and the tv shows of the next episodes, last played first. */
  function InProgressNextShowsAndMovies(movies: seq<Item>, nextShows: seq<Item>, limit: int): (r: seq<Item>)
    ensures Ranked(LastPlayed, true, movies + nextShows, limit, r)
  {
    SortAndTruncate(LastPlayed, true, movies + nextShows, limit)
  }

  /** `top250()`: movies and tv shows of the IMDb top 250, best rank first. */
  function Top250(movies: seq<Item>, tvshows: seq<Item>, limit: int): (r: seq<Item>)
    ensures Ranked(Top250Rank, false, movies + tvshows, limit, r)
  {
    SortAndTruncate(Top250Rank, false, movies + tvshows, limit)
  }

  /**
   * The five `extended*()` widgets (popular on TMDb or Trakt, trending, most
   * played, most watched): movies and tv shows in the order of the external
   * chart.
   */
  function Extended(movies: seq<Item>, tvshows: seq<Item>, limit: int): (r: seq<Item>)
    ensures Ranked(ExtendedIndex, false, movies + tvshows, limit, r)
  {
    SortAndTruncate(ExtendedIndex, false, movies + tvshows, limit)
  }

  /** `playlist_recent()`: a playlist, newest addition first. */
  function PlaylistRecent(items: seq<Item>, limit: int): (r: seq<Item>)
    ensures Ranked(DateAdded, true, items, limit, r)
  {
    SortAndTruncate(DateAdded, true, items, limit)
  }

  /** `playlist_year()`: a playlist, newest year first. */
  function PlaylistYear(items: seq<Item>, limit: int): (r: seq<Item>)
    ensures Ranked(Year, true, items, limit, r)
  {
    SortAndTruncate(Year, true, items, limit)
  }

  /** `playlist_title()`: a playlist in title order. */
  function PlaylistTitle(items: seq<Item>, limit: int): (r: seq<Item>)
    ensures Ranked(Title, false, items, limit, r)
  {
    SortAndTruncate(Title, false, items, limit)
  }

  /** With non-negative limits, a larger limit only appends items to a listing. */
  lemma ListingGrowsWithLimit(f: SortField, desc: bool, items: seq<Item>, small: int, large: int)
    requires 0 <= small <= large
    ensures var a, b := SortAndTruncate(f, desc, items, small), SortAndTruncate(f, desc, items, large);
      |a| <= |b| && a == b[..|a|]
  {
  }

  /** Top 250: of two titles with the same rank the one from the movie list comes first. */
  lemma Top250KeepsMovieFirst(movies: seq<Item>, tvshows: seq<Item>, limit: int, k: Key)
    ensures var r := WithKey(Top250Rank, k, Top250(movies, tvshows, limit));
      |r| <= |WithKey(Top250Rank, k, movies) + WithKey(Top250Rank, k, tvshows)|
      && r == (WithKey(Top250Rank, k, movies) + WithKey(Top250Rank, k, tvshows))[..|r|]
  {
    TruncatedStable(Top250Rank, false, k, movies + tvshows, limit);
    WithKeyAppend(Top250Rank, k, movies, tvshows);
  }

  /** What the two merging widgets compare: the title, or the movie id. */
  datatype MergeKey = ByTitle | ByMovieId

  /** The item has the field the merge reads (only movies carry a `movieid`). */
  predicate HasKey(m: MergeKey, x: Item) {
    m.ByTitle? || x.movieId.Some?
  }

  predicate AllHaveKey(m: MergeKey, s: seq<Item>) {
    forall x :: x in s ==> HasKey(m, x)
  }

  function KeyFor(m: MergeKey, x: Item): Key
    requires HasKey(m, x)
  {
    if m.ByTitle? then Text(x.title) else Whole(x.movieId.value)
  }

  /** The keys of the in-progress list, the `all_titles`/`all_ids` list. */
  function Keys(m: MergeKey, s: seq<Item>): set<Key>
    requires AllHaveKey(m, s)
  {
    set x | x in s :: KeyFor(m, x)
  }

  /** The items of `s` whose key is not in `seen`, in order. */
  function Unseen(m: MergeKey, seen: set<Key>, s: seq<Item>): seq<Item>
    requires AllHaveKey(m, s)
  {
    if s == [] then []
    else
      var p, x := s[..|s| - 1], s[|s| - 1];
      assert AllHaveKey(m, p) by {
        forall y | y in p ensures HasKey(m, y) {
          assert y in s;
        }
      }
      Unseen(m, seen, p) + (if KeyFor(m, x) in seen then [] else [x])
  }

  /**
   * An item comes through the filter exactly as often as it occurs in the
   * list when its key was not seen, and never otherwise: repeats within the
   * list all survive, since `seen` does not grow.
   */
  lemma {:induction false} UnseenCounts(m: MergeKey, seen: set<Key>, s: seq<Item>)
    requires AllHaveKey(m, s)
    ensures forall x :: x in s ==>
      multiset(Unseen(m, seen, s))[x] == if KeyFor(m, x) in seen then 0 else multiset(s)[x]
    ensures multiset(Unseen(m, seen, s)) <= multiset(s)
  {
    if s != [] {
      var p, y := s[..|s| - 1], s[|s| - 1];
      assert s == p + [y];
      assert AllHaveKey(m, p) by {
        forall z | z in p ensures HasKey(m, z) {
          assert z in s;
        }
      }
      UnseenCounts(m, seen, p);
      forall x | x in s
        ensures multiset(Unseen(m, seen, s))[x] == if KeyFor(m, x) in seen then 0 else multiset(s)[x]
      {
        if x !in p {
          assert multiset(p)[x] == 0;
          assert multiset(Unseen(m, seen, p))[x] == 0;
        }
      }
    }
  }

  /** The filter keeps the order of the list: it distributes over concatenation. */
  lemma {:induction false} UnseenAppend(m: MergeKey, seen: set<Key>, a: seq<Item>, b: seq<Item>)
    requires AllHaveKey(m, a) && AllHaveKey(m, b)
    ensures AllHaveKey(m, a + b)
    ensures Unseen(m, seen, a + b) == Unseen(m, seen, a) + Unseen(m, seen, b)
  {
    if b != [] {
      var q, y := b[..|b| - 1], b[|b| - 1];
      assert b == q + [y];
      assert (a + b)[..|a + b| - 1] == a + q;
      assert AllHaveKey(m, q) by {
        forall z | z in q ensures HasKey(m, z) {
          assert z in b;
        }
      }
      UnseenAppend(m, seen, a, q);
    } else {
      assert a + b == a;
    }
  }

  /**
   * `inprogressandrecommended()` (by title) and `inprogressandrandom()` (by
   * movie id): the in-progress list, then every item of the second list whose
   * key the in-progress list does not hold, cut to `limit`. Reading the movie
   * id of an item without one fails, so by id every item must carry one.
   */
  method MergeUnseen(m: MergeKey, inProgress: seq<Item>, more: seq<Item>, limit: int) returns (r: seq<Item>)
    requires AllHaveKey(m, inProgress) && AllHaveKey(m, more)
    ensures r == Take(inProgress + Unseen(m, Keys(m, inProgress), more), limit)
    ensures 0 <= limit ==> |r| <= limit
    ensures 0 <= limit ==> var n := if limit < |inProgress| then limit else |inProgress|;
      n <= |r| && r[..n] == inProgress[..n]
  {
    var seen := Keys(m, inProgress);
    var all := inProgress;
    var j := 0;
    while j < |more|
      invariant 0 <= j <= |more|
      invariant AllHaveKey(m, more[..j])
      invariant all == inProgress + Unseen(m, seen, more[..j])
    {
      var x := more[j];
      assert more[..j + 1] == more[..j] + [x];
      assert more[..j + 1][..j] == more[..j];
      if KeyFor(m, x) !in seen {
        all := all + [x];
      }
      j := j + 1;
    }
    assert more[..j] == more;
    r := Take(all, limit);
    if 0 <= limit {
      var n := if limit < |inProgress| then limit else |inProgress|;
      assert all[..n] == inProgress[..n];
    }
  }

  /** The movie genres some tv show also has, in movie-genre order. */
  function CommonGenres(movieGenres: seq<string>, tvshowGenres: seq<string>): seq<string> {
    if movieGenres == [] then []
    else
      var p, g := movieGenres[..|movieGenres| - 1], movieGenres[|movieGenres| - 1];
      CommonGenres(p, tvshowGenres) + (if g in tvshowGenres then [g] else [])
  }

  /**
   * A label is kept exactly when both lists hold it, as often as the movie
   * list holds it, and in the order of the movie list.
   */
  lemma {:induction false} CommonGenresSpec(movieGenres: seq<string>, tvshowGenres: seq<string>)
    ensures forall g :: g in CommonGenres(movieGenres, tvshowGenres) <==> g in movieGenres && g in tvshowGenres
    ensures forall g ::
      multiset(CommonGenres(movieGenres, tvshowGenres))[g] == if g in tvshowGenres then multiset(movieGenres)[g] else 0
  {
    if movieGenres != [] {
      var p, g := movieGenres[..|movieGenres| - 1], movieGenres[|movieGenres| - 1];
      assert movieGenres == p + [g];
      CommonGenresSpec(p, tvshowGenres);
    }
  }

  lemma {:induction false} CommonGenresAppend(a: seq<string>, b: seq<string>, tvshowGenres: seq<string>)
    ensures CommonGenres(a + b, tvshowGenres) == CommonGenres(a, tvshowGenres) + CommonGenres(b, tvshowGenres)
  {
    if b != [] {
      var q, g := b[..|b| - 1], b[|b| - 1];
      assert b == q + [g];
      assert (a + b)[..|a + b| - 1] == a + q;
      CommonGenresAppend(a, q, tvshowGenres);
    } else {
      assert a + b == a;
    }
  }

  /**
   * The matching loop of `browsegenres()`: for each movie genre, scan the tv
   * genres and append the label at the first match.
   */
  method SharedGenres(movieGenres: seq<string>, tvshowGenres: seq<string>) returns (r: seq<string>)
    ensures r == CommonGenres(movieGenres, tvshowGenres)
  {
    r := [];
    var i := 0;
    while i < |movieGenres|
      invariant 0 <= i <= |movieGenres|
      invariant r == CommonGenres(movieGenres[..i], tvshowGenres)
    {
      assert movieGenres[..i + 1][..i] == movieGenres[..i];
      ghost var before := r;
      var j := 0;
      while j < |tvshowGenres|
        invariant 0 <= j <= |tvshowGenres|
        invariant r == before
        invariant forall k :: 0 <= k < j ==> tvshowGenres[k] != movieGenres[i]
      {
        if movieGenres[i] == tvshowGenres[j] {
          r := r + [movieGenres[i]];
          break;
        }
        j := j + 1;
      }
      assert r == CommonGenres(movieGenres[..i + 1], tvshowGenres);
      i := i + 1;
    }
    assert movieGenres[..i] == movieGenres;
  }
}
