# Mixed media widgets: ranking and scoring

This Dafny project models the ranking core of the `Media` class of the Kodi
add-on `script.skin.helper.widgets` (`resources/lib/media.py`). These widgets
mix movies and tv shows, and sometimes albums, songs, episodes and recordings,
into one list. The model covers:

- the mixed movie/tv-show similarity score `get_similarity_score` and
  `convert_tvshow_genres` (`similarity.dfy`);
- the weighted reference set that `sort_by_recommended` builds from the play
  history (`reference_set.dfy`);
- the recommended score itself, and the `playlist` and `refplaylist` widgets
  built on it (`recommend.dfy`);
- the experimental branch of `similar()` (`similar.dfy`);
- the sort-and-cut listings, the two merging widgets and the genre matching of
  `browsegenres` (`listings.dfy`);
- the `&` ↔ `[and]` escaping of playlist labels (`labels.dfy`).

`items.dfy` holds the record type and the sort keys. `sorting.dfy` holds
Python's stable `sorted(..., key=..., reverse=...)` and the slice `[:limit]`.

A library record is the value type `Item`. `isMovie` stands for the presence
of `uniqueid`, and a missing or zero rating or year is `0`. Python's sort is
modelled as a stable insertion sort over a `Key`:

- timestamps and titles compare as text, code point by code point;
- ranks and years compare as integers;
- scores compare as numbers.

`reverse=True` is modelled as the same stable sort with the comparison
flipped, because that is what Python guarantees.

The code mutates each record in place (`item["similarscore"] = ...`). The
model's loops instead write the new field into the record's slot of a
sequence. Each loop method is proved equal to a specification function, and
the properties are proved about that function.

The square root in the cast score is only ever taken of k/5 for k in 0..5. It
is therefore a six-entry table `root` that the caller supplies with the
scorers (`IsRootTable`): each entry squares to k/5, with `root[0] = 0`,
`root[5] = 1`, and the others strictly between 0 and 1.

`Movies.get_similarity_score` and `Tvshows.get_similarity_score` are not part
of this model. They are the uninterpreted functions `Scorers.movie` and
`Scorers.tvshow`.

Where the code behaves otherwise than its comments or its names suggest, the model
follows the code:

- `convert_tvshow_genres` rebinds only its loop variable (lines 569-571), so it
  returns `set(genres)` with no genre mapped (`ConvertTvshowGenresKeepsTvLabels`).
- The module is Python 2, so `abs(Δyear)/10` on two integer years is integer
  division. The year term is therefore exactly 1 whenever both years are set and
  less than ten years apart, not a decreasing closeness (`YearScore`).
- The history walk stops as soon as the running weight reaches
  `num_recent_similar`. So for titles A, B, A, C with a target of 2, the
  repeat of A is never reached, and both A and B weigh 1
  (`ReferenceSetExample`).
- `inprogressepisodesandmovies` (lines 194-198) is the same expression as
  `inprogressshowsandmovies`, so one function models both.

## Model

| member | source | states |
|---|---|---|
| Sorting.SortBy | resources/lib/media.py:163 | `sorted` returns a permutation of its input: same multiset, same length |
| Sorting.SortBySorted | resources/lib/media.py:163 | the sorted list is ordered on the key, ascending or (with `reverse=True`) descending |
| Sorting.SortByStable | resources/lib/media.py:163 | stability: for every key, the items with that key keep their input order, with or without `reverse` |
| Sorting.SortByIdempotent | resources/lib/media.py:122 | sorting an already sorted list changes nothing |
| Sorting.Take | resources/lib/media.py:163 | `s[:n]` is a prefix of `s` of length min(n, len) for n ≥ 0 and len + n (at least 0) for negative n |
| Sorting.SortAndTruncate | resources/lib/media.py:163 | `sorted(...)[:limit]` is ordered, drawn from the input, exactly as long as the slice makes it, and every item cut off sorts after every item kept |
| Sorting.ResortIsIdentity | resources/lib/media.py:121-122 | sorting and cutting again on the same key and a non-negative limit returns the same list |
| Sorting.TruncatedStable | resources/lib/media.py:390 | among kept items with equal keys, they are the first such items of the input, in input order |
| Similarity.ConvertTvshowGenres | resources/lib/media.py:557-572 | a genre is in the result iff it is in the input: the table is never applied |
| Similarity.ConvertTvshowGenresKeepsTvLabels | resources/lib/media.py:560-572 | "TV Dramas" maps to "Drama" in the table, yet converting ["TV Dramas"] gives {"TV Dramas"} and not "Drama" |
| Similarity.ReferenceGenresAreGenreSet | resources/lib/media.py:530-534 | movie and tv-show references both yield `set(ref.genre)` |
| Similarity.GenreScore | resources/lib/media.py:538-540 | the genre ratio lies in [0, 1] |
| Similarity.GenreScoreEmpty | resources/lib/media.py:538 | a reference without genres scores 0 |
| Similarity.GenreScoreOne | resources/lib/media.py:538-540 | with reference genres, the ratio is 1 iff both genre sets are equal |
| Similarity.GenreScoreZero | resources/lib/media.py:538-540 | with reference genres, the ratio is 0 iff the genre sets are disjoint |
| Similarity.SharedCast | resources/lib/media.py:535-542 | at most 5 names of the two top-five casts are shared |
| Similarity.SharedCastFive | resources/lib/media.py:535-542 | 5 names are shared iff both top-five casts are the same five names |
| Similarity.CastScore | resources/lib/media.py:541-542 | sqrt(k/5) lies in [0, 1], is 0 iff no name is shared and 1 iff five are |
| Similarity.RatingScore | resources/lib/media.py:544-547 | in [0, 1]; positive iff both ratings are set and less than 3 apart; 1 iff the reference has a rating and both are equal |
| Similarity.YearScore | resources/lib/media.py:549-552 | 1 when both years are set and less than 10 apart, else 0 (integer division) |
| Similarity.MixedScore | resources/lib/media.py:525-555 | the weighted sum lies in [0, 0.625], and is 0.625 iff all four components are 1 |
| Similarity.MixedScoreWorkedExample | resources/lib/media.py:525-572 | a "TV Dramas" show as the reference against a Drama movie, sharing one cast name, rating and decade, scores 0.05·sqrt(1/5) + 0.075: the table maps TV Dramas to Drama, yet there is no genre credit |
| ReferenceSet.StopIndex | resources/lib/media.py:469-470 | the walk never consumes more items than the history has |
| ReferenceSet.StopIndexSpec | resources/lib/media.py:459-470 | the walk stops right after the first item that brings the running weight to the target, takes at least one item of a non-empty history, and takes all of it when no prefix gets there |
| ReferenceSet.FirstOccurrencesTitles | resources/lib/media.py:461-466 | the reference titles are distinct and are exactly the walked titles |
| ReferenceSet.FirstOccurrencesAreFirst | resources/lib/media.py:464-466 | each reference item is the first walked item of its title |
| ReferenceSet.FirstOccurrencesInOrder | resources/lib/media.py:464-466 | reference items stand in the order their titles were first walked |
| ReferenceSet.WeightsAtLeastOne | resources/lib/media.py:461-467 | every title weight is at least 1 |
| ReferenceSet.TotalWeightIsSum | resources/lib/media.py:459-468 | the running `weight_sum` equals the sum of the weights of the reference titles |
| ReferenceSet.ReferenceSetNonEmpty | resources/lib/media.py:453-470 | the reference list is empty iff the history is |
| ReferenceSet.ReferenceSetWeights | resources/lib/media.py:461-467 | every reference title has a weight, and every weight is at least 1 |
| ReferenceSet.ReferenceSetExample | resources/lib/media.py:459-470 | titles A, B, A, C with target 2 give references [A, B] with weights {A: 1, B: 1} |
| ReferenceSet.WalkStep | resources/lib/media.py:460-468 | one item adds a new title with weight 1 and 1 to the sum, or adds 0.5 to a seen title and to the sum |
| ReferenceSet.Visit | resources/lib/media.py:460-468 | the loop body takes the four running values of a walked prefix to those of the prefix one item longer |
| ReferenceSet.Walk | resources/lib/media.py:455-470 | the loop with its `break` produces exactly the reference set and the weight sum of the stopped walk |
| ReferenceSet.BuildReferenceSet | resources/lib/media.py:453-470 | the history, newest first, walked as above |
| Recommend.PairScore | resources/lib/media.py:483-491 | the scorer is picked by the pair's kinds: the movie scorer for two movies, the tv-show scorer for two tv shows, and the mixed scorer, within [0, 0.625], for a movie with a tv show either way round |
| Recommend.FlatWeights | resources/lib/media.py:472-476 | every given reference title has a weight, each weight is 1, and no other title has one |
| Recommend.FlatWeightsLoop | resources/lib/media.py:474-476 | the weights loop over given references builds exactly those flat weights |
| Recommend.ChooseReferences | resources/lib/media.py:440-476 | every chosen reference has a weight; references are absent only when none are given and the history is empty |
| Recommend.References | resources/lib/media.py:440-476 | the history when no references are given, otherwise the given ones with weight 1 |
| Recommend.WeightedSumLoop | resources/lib/media.py:479-491 | the inner loop accumulates Σ weight·score over the references, with the scorer picked per pair |
| Recommend.RecommendedScoreOf | resources/lib/media.py:493 | the score times (1 + playcount) times the number of references gives back the weighted sum, and a non-negative sum gives a non-negative score |
| Recommend.Rescored | resources/lib/media.py:493 | a candidate changes only in its `recommendedscore` |
| Recommend.Scored | resources/lib/media.py:478-493 | every candidate is rescored, in place and in order |
| Recommend.ScoreAll | resources/lib/media.py:478-493 | the outer loop writes each candidate's score into its slot |
| Recommend.SortByRecommended | resources/lib/media.py:437-495 | the result is the scored candidates sorted best first and cut to `limit` |
| Recommend.Damping | resources/lib/media.py:493 | sum/(1+playcount)/n never rises with the play count, and falls strictly for a positive sum |
| Recommend.PlaycountNeverRaises | resources/lib/media.py:492-493 | for equal weighted sums, a candidate played more often never scores higher |
| Recommend.FlatSumBound | resources/lib/media.py:478-491 | with weight 1 each and pair scores in [0, c], the weighted sum lies in [0, c·len(refs)] |
| Recommend.GivenReferencesAverage | resources/lib/media.py:472-493 | with given references, the score is an average: within [0, c/(1+playcount)] when every pair scores within [0, c] |
| Recommend.Playlist | resources/lib/media.py:112-122 | the playlist candidates ranked against the history; the second sort and cut changes nothing for a non-negative limit |
| Recommend.RefPlaylist | resources/lib/media.py:124-138 | candidates ranked against two playlists, or the history when both are empty; the second sort and cut changes nothing for a non-negative limit |
| Similar.CandidateScore | resources/lib/media.py:340-374 | a candidate of the reference's kind with its title and year (the reference itself among them) scores 0; every other candidate scores as the recommended ranking scores the pair, so one of the other kind within [0, 0.625] |
| Similar.Annotate | resources/lib/media.py:354-355 | the candidate gets its score and `extraproperties` {similartitle: reference title, originalpath: its file}, and nothing else changes |
| Similar.Annotated | resources/lib/media.py:340-377 | every candidate is annotated, in order |
| Similar.SimilarItems | resources/lib/media.py:316-379 | no reference gives no list; otherwise the annotated candidates sorted best first and cut to `limit` |
| Similar.SimilarResultAnnotated | resources/lib/media.py:354-379 | every returned item is an annotated candidate whose similartitle is the reference's title |
| Similar.SimilarResultOrdered | resources/lib/media.py:379 | returned similar scores never rise along the list, and a non-negative limit bounds the length |
| Listings.Recent | resources/lib/media.py:156-163 | recent media newest first, cut to `limit` |
| Listings.RecentShowsAndMovies | resources/lib/media.py:165-169 | recent movies and tv shows newest first, cut to `limit` |
| Listings.InProgress | resources/lib/media.py:181-186 | in-progress media last played first, cut to `limit` |
| Listings.InProgressShowsAndMovies | resources/lib/media.py:188-198 | in-progress movies and episodes last played first, cut to `limit` |
| Listings.InProgressNextShowsAndMovies | resources/lib/media.py:200-204 | in-progress movies and next shows last played first, cut to `limit` |
| Listings.Top250 | resources/lib/media.py:386-390 | top-250 titles in ascending rank, cut to `limit` |
| Listings.Extended | resources/lib/media.py:240-273 | chart titles in ascending chart index, cut to `limit` |
| Listings.PlaylistRecent | resources/lib/media.py:516-517 | a playlist newest addition first, cut to `limit` |
| Listings.PlaylistYear | resources/lib/media.py:519-520 | a playlist newest year first, cut to `limit` |
| Listings.PlaylistTitle | resources/lib/media.py:522-523 | a playlist in title order, cut to `limit` |
| Listings.ListingGrowsWithLimit | resources/lib/media.py:163 | with non-negative limits, a larger limit only appends items |
| Listings.Top250KeepsMovieFirst | resources/lib/media.py:388-390 | for equal ranks, the movie-list titles come before the tv-show titles, in their list order |
| Listings.UnseenCounts | resources/lib/media.py:209-212 | an item of the second list is appended iff its key is not an in-progress key, as often as it occurs (repeats survive) |
| Listings.UnseenAppend | resources/lib/media.py:210-212 | appended items keep the order of the second list |
| Listings.MergeUnseen | resources/lib/media.py:206-222 | the result is in-progress + unseen items, cut to `limit`: never longer than `limit`, with the in-progress list as an unchanged prefix |
| Listings.CommonGenresSpec | resources/lib/media.py:283-287 | a genre label is kept iff both lists hold it, as often as the movie list holds it |
| Listings.CommonGenresAppend | resources/lib/media.py:283-287 | kept labels follow the movie-genre order |
| Listings.SharedGenres | resources/lib/media.py:281-287 | the nested loop with `break` yields exactly the common genre labels |
| Labels.Escape | resources/lib/media.py:94 | an escaped label holds no `&` and is never shorter than the label |
| Labels.Unescape | resources/lib/media.py:114-115 | a decoded parameter is never longer than the parameter |
| Labels.UnescapeWithoutToken | resources/lib/media.py:126-127 | a parameter without `[and]` decodes to itself; one with `[and]` decodes to text holding `&` |
| Labels.EscapeWithoutAmpersand | resources/lib/media.py:94 | a label without `&` is left unchanged |
| Labels.UnescapeEscape | resources/lib/media.py:114-115 | decoding here undoes the encoding of line 94 for every label not itself holding `[and]` |
| Labels.EscapeUnescape | resources/lib/media.py:126-127 | the encoding of line 94 undoes this decoding for every parameter without a bare `&` |
| Labels.TokenLabelChanges | resources/lib/media.py:114-115 | a label that holds `[and]` does not survive the trip: "[and]" comes back as "&" |

## Left out

- Library queries (`metadatautils.kodidb`, `process_method_on_list`, `process_tvshow`, `get_tvshows_from_episodes`): their results are the input sequences of each member.
- The other widget classes (`Movies`, `Tvshows`, `Albums`, `Songs`, `Episodes`, `Pvr`) are not part of this model. Their per-kind similarity scores are uninterpreted functions.
- `get_recently_watched_item`, `get_references_last_played` and `get_items_for_recommended` only assemble query results and a random choice. The reference item and the history are inputs.
- `playlist_recommended` (lines 510-511) has no member of its own. It is `sort_by_recommended` without given references, which is `Recommend.SortByRecommended` with `givenRefs = []`.
- Random orderings are not modelled, because their order is random: `random`, the non-experimental `recommended` and `similar`, and the coin flip in `process_genre`.
- `watchagainshowsandmovies` and `playlist_random` are not modelled. Both call the module `random` as a function, so on a non-empty list they fail with a TypeError; on an empty list `sorted` never calls the key and both return `[]`.
- `process_genre` is not modelled. It calls `randint`, which the module never imports, so it fails with a NameError. `SharedGenres` therefore returns the matched labels, not the genre entries built from them.
- `listing`, `playlistslisting` (apart from its label escaping), `favourites` and `favourite` are not modelled. They are UI entry building and a foreign import.
- Floating point is not modelled. Arithmetic is exact `real`, and the square root is the supplied table rather than a computed value. A scorer that returned Python 2 integers would divide differently.
- Records are modelled as values. A record that appears twice in a list, or is shared between lists, is not aliased as a Python dict would be.
- Recommend.SortByRecommended requires some reference when there are candidates. Without one, the code divides by zero (line 493).
- Similar.CandidateScore: `similar()` calls the per-kind scorers with a precomputed `sets=` argument (lines 348-349 and 370-371; for a tv-show reference it holds a top-10 cast set, line 359), while `sort_by_recommended` calls them without it (lines 485 and 491). The model uses one function per kind for both call forms. It assumes that the scorers score the same with or without `sets`, as the comments "define sets for speed" (lines 333 and 357) suggest. `Movies` and `Tvshows` are not part of this model, so this is not proved.
- Listings.MergeUnseen requires, when merging by movie id, that every item has a `movieid`. Otherwise the code raises a KeyError (lines 218 and 220).
- Similar.SimilarItems takes the reference as an `Option`. `None` stands for the empty record on which the code returns `None`. A `None` reference, on which line 319 would fail, is not modelled.
