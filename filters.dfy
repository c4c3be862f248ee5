/**
 * The filter engine of `GET /api/films/filter/:filter`: a closed set of five
 * named views, each an order-preserving filter over the caller's films.
 */
module Filters {
  import opened Common
  import opened Dates
  import opened Dao

  datatype FilterKind = All | Favorites | BestRated | SeenLastMonth | Unseen

  /** The accepted names, in the order the route lists them. */
  const FilterNames: seq<string> := ["All", "Favorites", "Best Rated", "Seen Last Month", "Unseen"]

  function NameOf(k: FilterKind): string {
    match k
    case All => "All"
    case Favorites => "Favorites"
    case BestRated => "Best Rated"
    case SeenLastMonth => "Seen Last Month"
    case Unseen => "Unseen"
  }

  /** The route's name check: exactly the five listed names are known, each naming one view. */
  function ParseFilter(name: string): (k: Option<FilterKind>)
    ensures k.Some? <==> name in FilterNames
    ensures k.Some? ==> NameOf(k.value) == name
  {
    if name == "All" then Some(All)
    else if name == "Favorites" then Some(Favorites)
    else if name == "Best Rated" then Some(BestRated)
    else if name == "Seen Last Month" then Some(SeenLastMonth)
    else if name == "Unseen" then Some(Unseen)
    else None
  }

  lemma NamesRoundTrip(k: FilterKind)
    ensures ParseFilter(NameOf(k)) == Some(k)
  {
  }

  /**
   * `f.date !== null && dayjs().diff(dayjs(f.date), 'day') <= 30`: the film
   * has a readable date at most 30 days before `today` (dates after today
   * qualify too).  A date that cannot be read compares as NaN, so it fails.
   */
  predicate SeenWithin30Days(f: Film, today: int) {
    f.date.Some? && ParseDate(f.date.value).Some? && today - ParseDate(f.date.value).value <= 30
  }

  /** `!(f.date)`: no date, or the empty text, which JavaScript also takes as false. */
  predicate NoDate(f: Film) {
    f.date.None? || f.date == Some("")
  }

  /** The `switch` inside the route's `films.filter` callback. */
  predicate Keeps(k: FilterKind, f: Film, today: int) {
    match k
    case All => true
    case Favorites => f.fav
    case BestRated => f.rating == 5
    case SeenLastMonth => SeenWithin30Days(f, today)
    case Unseen => NoDate(f)
  }

  /** `films.filter(...)`: the films the view keeps, in their original order, and no others. */
  function FilterFilms(films: seq<Film>, k: FilterKind, today: int): (r: seq<Film>)
    ensures IsSubsequence(r, films)
    ensures forall f :: f in r ==> Keeps(k, f, today)
    ensures forall f :: f in films && Keeps(k, f, today) ==> f in r
  {
    if films == [] then []
    else
      var rest := FilterFilms(films[1..], k, today);
      SubsequenceMembers(rest, films[1..]);
      if Keeps(k, films[0], today) then
        assert ([films[0]] + rest)[1..] == rest;
        [films[0]] + rest
      else rest
  }

  /** `All` returns the films unchanged. */
  lemma {:induction false} AllKeepsEverything(films: seq<Film>, today: int)
    ensures FilterFilms(films, All, today) == films
  {
    if films != [] {
      AllKeepsEverything(films[1..], today);
      assert films == [films[0]] + films[1..];
    }
  }

  /** `Best Rated` keeps exactly the films rated 5. */
  lemma BestRatedExactlyFive(films: seq<Film>, today: int, f: Film)
    ensures f in FilterFilms(films, BestRated, today) <==> f in films && f.rating == 5
  {
    SubsequenceMembers(FilterFilms(films, BestRated, today), films);
  }

  /** `Favorites` keeps exactly the favorite films. */
  lemma FavoritesExactlyFav(films: seq<Film>, today: int, f: Film)
    ensures f in FilterFilms(films, Favorites, today) <==> f in films && f.fav
  {
    SubsequenceMembers(FilterFilms(films, Favorites, today), films);
  }

  /** `Unseen` keeps exactly the films without a date. */
  lemma UnseenExactlyNoDate(films: seq<Film>, today: int, f: Film)
    ensures f in FilterFilms(films, Unseen, today) <==> f in films && NoDate(f)
  {
    SubsequenceMembers(FilterFilms(films, Unseen, today), films);
  }

  /** `Seen Last Month` and `Unseen` never share a film; a film without a date is never "seen". */
  lemma SeenAndUnseenDisjoint(films: seq<Film>, today: int, f: Film)
    ensures !(f in FilterFilms(films, SeenLastMonth, today) && f in FilterFilms(films, Unseen, today))
    ensures f.date.None? ==> f !in FilterFilms(films, SeenLastMonth, today)
  {
    if f in FilterFilms(films, SeenLastMonth, today) {
      assert ParseDate(f.date.value).Some?;
    }
  }

  /** A view over a user's film list holds only that user's films. */
  lemma ViewsStayWithOwner(rows: seq<Row>, u: UserId, k: FilterKind, today: int)
    ensures forall f :: f in FilterFilms(SelectByUser(rows, u), k, today) ==> f.user == u
  {
    var films := SelectByUser(rows, u);
    SubsequenceMembers(FilterFilms(films, k, today), films);
  }
}
