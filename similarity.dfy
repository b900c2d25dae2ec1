/**
 * The mixed movie/tv-show similarity scorer `Media.get_similarity_score` and
 * `convert_tvshow_genres`: a weighted sum of a genre ratio, a top-5 cast
 * overlap, rating closeness and year closeness.
 */
module Similarity {
  import opened Items

  /**
   * The scorers a ranking widget is given. `movie` and `tvshow` stand for
   * `Movies.get_similarity_score` and `Tvshows.get_similarity_score`, which are
   * not part of this model. `root` holds the square roots of 0/5, 1/5, ..., 5/5,
   * the only values the cast score ever takes the square root of.
   */
  datatype Scorers = Scorers(movie: (Item, Item) -> real, tvshow: (Item, Item) -> real, root: seq<real>)

  /**
   * `root[k]` is the non-negative square root of k/5: it squares to k/5, is 0
   * for k = 0, 1 for k = 5 and strictly between them otherwise.
   */
  predicate IsRootTable(root: seq<real>) {
    && |root| == 6
    && (forall k :: 0 <= k < 6 ==> root[k] * root[k] == k as real / 5.0)
    && root[0] == 0.0 && root[5] == 1.0
    && (forall k :: 1 <= k < 5 ==> 0.0 < root[k] < 1.0)
  }

  /** The distinct elements of a list, Python's `set(list)`. */
  function Elems(s: seq<string>): set<string> {
    set x | x in s
  }

  lemma {:induction false} ElemsSize(s: seq<string>)
    ensures |Elems(s)| <= |s|
  {
    if s != [] {
      var p := s[..|s| - 1];
      ElemsSize(p);
      assert Elems(s) == Elems(p) + {s[|s| - 1]} by {
        assert s == p + [s[|s| - 1]];
      }
    }
  }

  lemma SubsetSameSize(a: set<string>, b: set<string>)
    requires a <= b && |a| == |b|
    ensures a == b
  {
    if a != b {
      var y :| y in b && y !in a;
      assert a <= b - {y};
      assert |b - {y}| == |b| - 1;
      SubsetSize(a, b - {y});
    }
  }

  lemma {:induction false} SubsetSize(a: set<string>, b: set<string>)
    requires a <= b
    ensures |a| <= |b|
    decreases b
  {
    if a != {} {
      var x :| x in a;
      SubsetSize(a - {x}, b - {x});
    }
  }

  /** The tv-genre to movie-genre table of `convert_tvshow_genres`. */
  const TvshowGenreTable: map<string, string> := map[
    "TV Documentaries" := "Documentary",
    "TV Sci-Fi & Fantasy" := "Sci-Fi & Fantasy",
    "TV Action & Adventure" := "Action & Adventure",
    "TV Comedies" := "Comedy",
    "TV Mysteries" := "Mystery",
    "TV Westerns" := "Westerns",
    "TV Dramas" := "Drama",
    "TV Crime Dramas" := "Crime Dramas"]

  /**
   * `convert_tvshow_genres` as written: its loop only rebinds the loop
   * variable, so the table is never applied and the result is the set of the
   * input genres.
   */
  function ConvertTvshowGenres(genres: seq<string>): (r: set<string>)
    ensures forall g :: g in r <==> g in genres
  {
    Elems(genres)
  }

  /** A tv genre that the table maps elsewhere still comes back unmapped. */
  lemma ConvertTvshowGenresKeepsTvLabels()
    ensures "TV Dramas" in TvshowGenreTable && TvshowGenreTable["TV Dramas"] == "Drama"
    ensures ConvertTvshowGenres(["TV Dramas"]) == {"TV Dramas"}
    ensures "Drama" !in ConvertTvshowGenres(["TV Dramas"])
  {
    assert "TV Dramas" in ["TV Dramas"];
  }

  /** The reference's genre set: `set(genre)` for a movie, the converted set for a tv show. */
  function ReferenceGenres(ref: Item): set<string> {
    if ref.isMovie then Elems(ref.genre) else ConvertTvshowGenres(ref.genre)
  }

  /** Both branches give `set(ref.genre)`. */
  lemma ReferenceGenresAreGenreSet(ref: Item)
    ensures ReferenceGenres(ref) == Elems(ref.genre)
  {
    if !ref.isMovie {
      var r := ConvertTvshowGenres(ref.genre);
      assert forall g :: g in r <==> g in Elems(ref.genre);
    }
  }

  /** A count over a larger positive count lies between 0 and 1. */
  function Ratio(num: nat, den: nat): (r: real)
    requires num <= den && 0 < den
    ensures 0.0 <= r <= 1.0
    ensures r == 0.0 <==> num == 0
    ensures r == 1.0 <==> num == den
  {
    var q := num as real / den as real;
    assert q * den as real == num as real;
    q
  }

  /** |ref ∩ other| / |ref ∪ other|, or 0 when the reference has no genre. */
  function GenreScore(ref: Item, other: Item): (r: real)
    ensures 0.0 <= r <= 1.0
  {
    var a, b := ReferenceGenres(ref), Elems(other.genre);
    if a == {} then 0.0
    else
      SubsetSize(a * b, a + b);
      SubsetSize(a, a + b);
      Ratio(|a * b|, |a + b|)
  }

  lemma GenreScoreEmpty(ref: Item, other: Item)
    requires ref.genre == []
    ensures GenreScore(ref, other) == 0.0
  {
    ReferenceGenresAreGenreSet(ref);
  }

  /** With a non-empty reference set, the genre score is 1 exactly when both genre sets are equal. */
  lemma GenreScoreOne(ref: Item, other: Item)
    requires ref.genre != []
    ensures GenreScore(ref, other) == 1.0 <==> Elems(ref.genre) == Elems(other.genre)
  {
    ReferenceGenresAreGenreSet(ref);
    var a, b := Elems(ref.genre), Elems(other.genre);
    assert ref.genre[0] in a;
    SubsetSize(a, a + b);
    var num, den := |a * b| as real, |a + b| as real;
    assert den > 0.0;
    if GenreScore(ref, other) == 1.0 {
      assert num / den == 1.0;
      assert num == den;
      SubsetSameSize(a * b, a + b);
      assert a == b by {
        forall x | x in a + b ensures x in a && x in b {
          assert x in a * b;
        }
      }
    }
    if a == b {
      assert a * b == a + b;
    }
  }

  /** With a non-empty reference set, the genre score is 0 exactly when the genre sets are disjoint. */
  lemma GenreScoreZero(ref: Item, other: Item)
    requires ref.genre != []
    ensures GenreScore(ref, other) == 0.0 <==> Elems(ref.genre) * Elems(other.genre) == {}
  {
    ReferenceGenresAreGenreSet(ref);
    var a, b := Elems(ref.genre), Elems(other.genre);
    assert ref.genre[0] in a;
    SubsetSize(a, a + b);
    if a * b != {} {
      var x :| x in a * b;
      assert |a * b| >= 1 by {
        SubsetSize({x}, a * b);
      }
    }
  }

  function Min(a: int, b: int): int {
    if a < b then a else b
  }

  /** The names of the first five billed cast members. */
  function TopCast(cast: seq<string>): set<string> {
    Elems(cast[..Min(5, |cast|)])
  }

  lemma TopCastSize(cast: seq<string>)
    ensures |TopCast(cast)| <= 5
  {
    ElemsSize(cast[..Min(5, |cast|)]);
  }

  /** How many of the reference's top-five cast names appear in the other's top five. */
  function SharedCast(ref: Item, other: Item): (k: nat)
    ensures k <= 5
  {
    TopCastSize(ref.cast);
    SubsetSize(TopCast(ref.cast) * TopCast(other.cast), TopCast(ref.cast));
    |TopCast(ref.cast) * TopCast(other.cast)|
  }

  /** All five names are shared exactly when both top-five casts are the same five names. */
  lemma SharedCastFive(ref: Item, other: Item)
    ensures SharedCast(ref, other) == 5 <==>
      TopCast(ref.cast) == TopCast(other.cast) && |TopCast(ref.cast)| == 5
  {
    var a, b := TopCast(ref.cast), TopCast(other.cast);
    TopCastSize(ref.cast);
    TopCastSize(other.cast);
    if SharedCast(ref, other) == 5 {
      SubsetSize(a * b, a);
      SubsetSize(a * b, b);
      SubsetSameSize(a * b, a);
      SubsetSameSize(a * b, b);
    }
    if a == b {
      assert a * b == a;
    }
  }

  /** sqrt(k/5) for the k shared names. */
  function CastScore(root: seq<real>, ref: Item, other: Item): (r: real)
    requires IsRootTable(root)
    ensures 0.0 <= r <= 1.0
    ensures r == 0.0 <==> SharedCast(ref, other) == 0
    ensures r == 1.0 <==> SharedCast(ref, other) == 5
  {
    var k := SharedCast(ref, other);
    RootFacts(root, k);
    root[k]
  }

  lemma RootFacts(root: seq<real>, k: nat)
    requires IsRootTable(root) && k <= 5
    ensures root[k] <= 1.0
    ensures root[k] == 0.0 <==> k == 0
    ensures root[k] == 1.0 <==> k == 5
  {
  }

  function Abs(x: real): real {
    if x < 0.0 then -x else x
  }

  function AbsInt(x: int): int {
    if x < 0 then -x else x
  }

  /** 1 - |Δrating|/3 when both ratings are set and less than 3 apart, otherwise 0. */
  function RatingScore(ref: Item, other: Item): (r: real)
    ensures 0.0 <= r <= 1.0
    ensures r > 0.0 <==> ref.rating != 0.0 && other.rating != 0.0 && Abs(ref.rating - other.rating) < 3.0
    ensures r == 1.0 <==> ref.rating != 0.0 && ref.rating == other.rating
  {
    if ref.rating != 0.0 && other.rating != 0.0 && Abs(ref.rating - other.rating) < 3.0 then
      1.0 - Abs(ref.rating - other.rating) / 3.0
    else 0.0
  }

  /**
   * `1 - abs(Δyear)/10` when both years are set and less than 10 apart. The years
   * are integers and the module is Python 2, so `/` truncates: the quotient is 0.
   */
  function YearScore(ref: Item, other: Item): (r: real)
    ensures r == if ref.year != 0 && other.year != 0 && AbsInt(ref.year - other.year) < 10 then 1.0 else 0.0
  {
    if ref.year != 0 && other.year != 0 && AbsInt(ref.year - other.year) < 10 then
      (1 - AbsInt(ref.year - other.year) / 10) as real
    else 0.0
  }

  /** The documented weighted sum, in the range 0 to 0.625. */
  function MixedScore(root: seq<real>, ref: Item, other: Item): (r: real)
    requires IsRootTable(root)
    ensures 0.0 <= r <= 0.625
    ensures r == 0.625 <==>
      GenreScore(ref, other) == 1.0 && CastScore(root, ref, other) == 1.0 &&
      RatingScore(ref, other) == 1.0 && YearScore(ref, other) == 1.0
  {
    0.5 * GenreScore(ref, other) + 0.05 * CastScore(root, ref, other)
      + 0.025 * RatingScore(ref, other) + 0.05 * YearScore(ref, other)
  }

  /**
   * A tv show "Y" (TV Dramas, cast A, rating 7, 2001) as the reference against
   * a movie "X" (Drama, cast A, rating 7, 2000): the table maps TV Dramas to
   * Drama, but since `convert_tvshow_genres` never applies it the genres do not
   * match; one of five cast names is shared, and the year term is a full 1.
   */
  lemma MixedScoreWorkedExample(root: seq<real>, y: Item, x: Item)
    requires IsRootTable(root)
    requires !y.isMovie && y.genre == ["TV Dramas"] && y.cast == ["A"] && y.rating == 7.0 && y.year == 2001
    requires x.isMovie && x.genre == ["Drama"] && x.cast == ["A"] && x.rating == 7.0 && x.year == 2000
    ensures "TV Dramas" in TvshowGenreTable && TvshowGenreTable["TV Dramas"] in x.genre
    ensures MixedScore(root, y, x) == 0.05 * root[1] + 0.075
  {
    assert GenreScore(y, x) == 0.0 by {
      assert Elems(x.genre) == {"Drama"} by {
        assert "Drama" in x.genre;
      }
      assert Elems(y.genre) == {"TV Dramas"} by {
        assert "TV Dramas" in y.genre;
      }
      GenreScoreZero(y, x);
    }
    assert SharedCast(y, x) == 1 by {
      assert y.cast[..Min(5, |y.cast|)] == ["A"];
      assert x.cast[..Min(5, |x.cast|)] == ["A"];
      assert Elems(["A"]) == {"A"} by {
        assert "A" in ["A"];
      }
    }
    assert YearScore(y, x) == 1.0;
    assert RatingScore(y, x) == 1.0;
  }

}
