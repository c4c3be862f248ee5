/**
 * The request-body checks of the film routes and the PATCH dispatch rule.
 * Create and replace run one chain (rating, title, fav, date); PATCH checks
 * fav and rating only when they were sent, then picks one column to update.
 */
module Validation {
  import opened Common
  import opened Dates
  import opened Dao

  /** A JSON value as it can appear in a field of a request body. */
  datatype Json = JBool(b: bool) | JInt(i: int) | JText(s: string) | JNull

  /**
   * A request body; `None` is a field the client did not send.  `id` and
   * `user` are listed because a client may send them: no route reads them.
   */
  datatype Body = Body(
    id: Option<Json>, title: Option<Json>, fav: Option<Json>,
    date: Option<Json>, rating: Option<Json>, user: Option<Json>)

  const EmptyBody := Body(None, None, None, None, None, None)

  /** The field a failed check names in a 422 response. */
  datatype Field = Rating | Title | Fav | Date

  /** `check('rating').isInt({min: 0, max: 5})` */
  predicate RatingOk(v: Option<Json>) {
    v.Some? && v.value.JInt? && 0 <= v.value.i <= 5
  }

  /** `check('title').notEmpty()` */
  predicate TitleOk(v: Option<Json>) {
    v.Some? && v.value.JText? && v.value.s != ""
  }

  /** `check('fav').isBoolean()` */
  predicate FavOk(v: Option<Json>) {
    v.Some? && v.value.JBool?
  }

  /** `check('date').if(body('date').exists()).isDate({format: 'YYYY-MM-DD', strictMode: true})` */
  predicate DateOk(v: Option<Json>) {
    v.None? || (v.value.JText? && IsStrictDate(v.value.s))
  }

  predicate Passes(b: Body, f: Field) {
    match f
    case Rating => RatingOk(b.rating)
    case Title => TitleOk(b.title)
    case Fav => FavOk(b.fav)
    case Date => DateOk(b.date)
  }

  /** The create/replace chain, in the order its checks run; each failing check adds its field once. */
  function FilmErrors(b: Body): (errs: seq<Field>)
    ensures forall f :: f in errs <==> !Passes(b, f)
    ensures forall i, j :: 0 <= i < j < |errs| ==> errs[i] != errs[j]
  {
    (if RatingOk(b.rating) then [] else [Rating])
      + (if TitleOk(b.title) then [] else [Title])
      + (if FavOk(b.fav) then [] else [Fav])
      + (if DateOk(b.date) then [] else [Date])
  }

  /**
   * The create/replace body check.  Either every check passes and the draft
   * holds exactly the body's title, fav, date and rating, or the result lists
   * every failing field.  The body's `id` and `user` play no part.
   */
  function ValidateFilm(b: Body): (r: Result<Draft, seq<Field>>)
    ensures r.Ok? <==> forall f :: Passes(b, f)
    ensures r.Err? ==> r.error != [] && forall f :: f in r.error <==> !Passes(b, f)
    ensures r.Ok? ==> && r.value.title != ""
                      && 0 <= r.value.rating <= 5
                      && (r.value.date.Some? ==> IsStrictDate(r.value.date.value))
    ensures r.Ok? ==> && b.title == Some(JText(r.value.title))
                      && b.fav == Some(JBool(r.value.fav))
                      && b.rating == Some(JInt(r.value.rating))
                      && b.date == (if r.value.date.Some? then Some(JText(r.value.date.value)) else None)
  {
    var errs := FilmErrors(b);
    if errs != [] then
      assert !Passes(b, errs[0]);
      Err(errs)
    else
      assert Passes(b, Rating) && Passes(b, Title) && Passes(b, Fav) && Passes(b, Date);
      Ok(Draft(
        b.title.value.s,
        b.fav.value.b,
        if b.date.Some? then Some(b.date.value.s) else None,
        b.rating.value.i))
  }

  /** Fields the client adds beyond title, fav, date and rating change nothing. */
  lemma IdAndUserIgnored(b: Body, id: Option<Json>, user: Option<Json>)
    ensures ValidateFilm(b.(id := id, user := user)) == ValidateFilm(b)
  {
  }

  /** The PATCH chain: fav, then rating, each checked only when it was sent. */
  function PatchErrors(b: Body): (errs: seq<Field>)
    ensures Fav in errs <==> b.fav.Some? && !FavOk(b.fav)
    ensures Rating in errs <==> b.rating.Some? && !RatingOk(b.rating)
    ensures Title !in errs && Date !in errs
  {
    (if b.fav.None? || FavOk(b.fav) then [] else [Fav])
      + (if b.rating.None? || RatingOk(b.rating) then [] else [Rating])
  }

  /** The DAO call a validated PATCH makes; `None` is JavaScript's `undefined` passed as the value. */
  datatype PatchCall = UpdateFavoriteCall(fav: Option<bool>) | UpdateRatingCall(rating: int)

  /**
   * PATCH dispatch as the route is written: when `rating` is absent the
   * favorite column is updated with whatever `fav` holds, including nothing.
   */
  function PatchCallAsWritten(b: Body): (r: Result<PatchCall, seq<Field>>)
    ensures r.Err? <==> PatchErrors(b) != []
    ensures r.Ok? && b.rating.Some? ==> r.value == UpdateRatingCall(b.rating.value.i)
    ensures r.Ok? && b.rating.None? ==> r.value.UpdateFavoriteCall? && (r.value.fav.Some? <==> b.fav.Some?)
  {
    var errs := PatchErrors(b);
    if errs != [] then Err(errs)
    else if b.rating.None? then
      Ok(UpdateFavoriteCall(if b.fav.Some? then Some(b.fav.value.b) else None))
    else
      assert Rating !in errs;
      Ok(UpdateRatingCall(b.rating.value.i))
  }

  /**
   * PATCH dispatch as intended: a body must carry fav or rating (otherwise
   * 422 naming both); a present rating wins and fav is then ignored.
   */
  function ValidatePatch(b: Body): (r: Result<Change, seq<Field>>)
    ensures r.Ok? <==> PatchErrors(b) == [] && (b.fav.Some? || b.rating.Some?)
    ensures r.Ok? && b.rating.Some? ==> r.value == SetRating(b.rating.value.i) && 0 <= r.value.rating <= 5
    ensures r.Ok? && b.rating.None? ==> r.value == SetFavorite(b.fav.value.b)
    ensures r.Err? ==> r.error != []
    ensures r.Err? && PatchErrors(b) != [] ==> r.error == PatchErrors(b)
  {
    var errs := PatchErrors(b);
    if errs != [] then Err(errs)
    else if b.rating.Some? then
      assert Rating !in errs;
      Ok(SetRating(b.rating.value.i))
    else if b.fav.Some? then
      assert Fav !in errs;
      Ok(SetFavorite(b.fav.value.b))
    else Err([Fav, Rating])
  }

  /**
   * The defect in the route as written: an empty PATCH body passes
   * validation and reaches `updateFavorite` with no value; the intended
   * dispatch rejects it.
   */
  lemma EmptyPatchReachesUpdateFavorite()
    ensures PatchErrors(EmptyBody) == []
    ensures PatchCallAsWritten(EmptyBody) == Ok(UpdateFavoriteCall(None))
    ensures ValidatePatch(EmptyBody) == Err([Fav, Rating])
  {
  }

  /** Whenever fav or rating is sent, the intended dispatch makes the call the route makes. */
  lemma PatchAgreesWhenAFieldIsSent(b: Body)
    requires b.fav.Some? || b.rating.Some?
    ensures ValidatePatch(b).Ok? <==> PatchCallAsWritten(b).Ok?
    ensures ValidatePatch(b).Err? ==> ValidatePatch(b).error == PatchCallAsWritten(b).error
    ensures ValidatePatch(b).Ok? ==>
      match ValidatePatch(b).value
      case SetRating(x) => PatchCallAsWritten(b).value == UpdateRatingCall(x)
      case SetFavorite(x) => PatchCallAsWritten(b).value == UpdateFavoriteCall(Some(x))
      case SetAll(_, _, _, _) => false
  {
  }

  /** With a valid rating sent, a valid or absent fav makes no difference: rating takes precedence. */
  lemma RatingTakesPrecedence(b: Body, fav: Option<Json>)
    requires RatingOk(b.rating)
    requires fav.None? || FavOk(fav)
    requires b.fav.None? || FavOk(b.fav)
    ensures ValidatePatch(b.(fav := fav)) == ValidatePatch(b) == Ok(SetRating(b.rating.value.i))
  {
  }
}
