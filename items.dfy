/** Item records shared by every widget, and the sort keys the widgets order them by. */
module Items {

  datatype Option<T> = None | Some(value: T)

  /** The `extraproperties` the similar widget attaches to each candidate. */
  datatype Extra = Extra(similarTitle: string, originalPath: string)

  /**
   * One media record as the library returns it. `isMovie` stands for the presence
   * of `uniqueid`, the only thing that tells a movie record from a tv-show record.
   * A missing or zero rating/year is 0. `similarScore`, `recommendedScore` and
   * `extra` are the fields the widgets write into the record.
   */
  datatype Item = Item(
    isMovie: bool,
    title: string,
    year: int,
    rating: real,
    genre: seq<string>,
    cast: seq<string>,     // cast names, in billing order
    playcount: nat,
    dateAdded: string,
    lastPlayed: string,
    top250Rank: int,
    extendedIndex: int,
    movieId: Option<int>,
    file: string,
    similarScore: real,
    recommendedScore: real,
    extra: Option<Extra>)

  /** A sort key: timestamps and titles compare as text, ranks and years as integers, scores as numbers. */
  datatype Key = Text(s: string) | Whole(i: int) | Num(r: real)

  /** The record fields the widgets sort by. */
  datatype SortField =
    | DateAdded | LastPlayed | Top250Rank | ExtendedIndex | Year | Title
    | SimilarScore | RecommendedScore

  function KeyOf(f: SortField, x: Item): Key {
    match f
    case DateAdded => Text(x.dateAdded)
    case LastPlayed => Text(x.lastPlayed)
    case Top250Rank => Whole(x.top250Rank)
    case ExtendedIndex => Whole(x.extendedIndex)
    case Year => Whole(x.year)
    case Title => Text(x.title)
    case SimilarScore => Num(x.similarScore)
    case RecommendedScore => Num(x.recommendedScore)
  }

  /** Lexicographic comparison of text by code point, as Python compares strings. */
  predicate TextLe(a: string, b: string) {
    |a| == 0 || (|b| > 0 && (a[0] < b[0] || (a[0] == b[0] && TextLe(a[1..], b[1..]))))
  }

  function Tag(k: Key): nat {
    match k
    case Text(_) => 0
    case Whole(_) => 1
    case Num(_) => 2
  }

  /**
   * The order on keys. One field always yields keys of one kind; keys of
   * different kinds (never compared by a widget) are ordered by kind.
   */
  predicate KeyLe(a: Key, b: Key) {
    if a.Text? && b.Text? then TextLe(a.s, b.s)
    else if a.Whole? && b.Whole? then a.i <= b.i
    else if a.Num? && b.Num? then a.r <= b.r
    else Tag(a) < Tag(b)
  }

  lemma {:induction false} TextLeRefl(a: string)
    ensures TextLe(a, a)
  {
    if |a| > 0 {
      TextLeRefl(a[1..]);
    }
  }

  lemma {:induction false} TextLeTotal(a: string, b: string)
    ensures TextLe(a, b) || TextLe(b, a)
  {
    if |a| > 0 && |b| > 0 && a[0] == b[0] {
      TextLeTotal(a[1..], b[1..]);
    }
  }

  lemma {:induction false} TextLeTrans(a: string, b: string, c: string)
    requires TextLe(a, b) && TextLe(b, c)
    ensures TextLe(a, c)
  {
    if |a| > 0 && |b| > 0 && |c| > 0 && a[0] == b[0] && b[0] == c[0] {
      TextLeTrans(a[1..], b[1..], c[1..]);
    }
  }

  lemma KeyLeRefl(a: Key)
    ensures KeyLe(a, a)
  {
    if a.Text? {
      TextLeRefl(a.s);
    }
  }

  lemma KeyLeTotal(a: Key, b: Key)
    ensures KeyLe(a, b) || KeyLe(b, a)
  {
    if a.Text? && b.Text? {
      TextLeTotal(a.s, b.s);
    }
  }

  lemma KeyLeTrans(a: Key, b: Key, c: Key)
    requires KeyLe(a, b) && KeyLe(b, c)
    ensures KeyLe(a, c)
  {
    if a.Text? && b.Text? && c.Text? {
      TextLeTrans(a.s, b.s, c.s);
    }
  }
}
