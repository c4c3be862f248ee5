/**
 * The request handlers of the film library's HTTP API and the session they
 * run under.  Every `/api/films...` route first passes the `isLoggedIn` gate;
 * the create, replace and patch routes then validate the body; only after
 * both does a route touch the store, always on behalf of the session's user.
 */
module Server {
  import opened Common
  import opened Dates
  import opened Dao
  import opened Validation
  import opened Filters

  /** The logged-in user as the session knows it. */
  datatype User = User(id: UserId, username: string, name: string)

  /** The JSON (or empty) body of a response. */
  datatype Payload =
    | Empty
    | FilmList(films: seq<Film>)
    | OneFilm(film: Film)
    | Message(text: string)
    | Invalid(fields: seq<Field>)
    | Identity(user: User)

  datatype Response = Response(status: int, payload: Payload)

  const NotAuthenticated := Response(401, Message("not authenticated"))

  /** Decimal text of an id, as it appears in the route's error messages. */
  function IdText(n: int): (text: string)
    ensures text != []
    ensures n >= 0 ==> forall i :: 0 <= i < |text| ==> IsDigit(text[i])
    ensures 0 <= n < 10 ==> |text| == 1
    decreases if n < 0 then 1 - n else n
  {
    if n < 0 then "-" + IdText(-n)
    else if n < 10 then [['0', '1', '2', '3', '4', '5', '6', '7', '8', '9'][n]]
    else IdText(n / 10) + IdText(n % 10)
  }

  /** The number a text of decimal digits stands for. */
  function DecimalValue(s: string): nat
    requires forall i :: 0 <= i < |s| ==> IsDigit(s[i])
  {
    if s == [] then 0 else 10 * DecimalValue(s[..|s| - 1]) + Digit(s[|s| - 1])
  }

  /** Reading back the text of a non-negative id gives the id. */
  lemma {:induction false} IdTextRoundTrip(n: nat)
    ensures DecimalValue(IdText(n)) == n
  {
    if n >= 10 {
      IdTextRoundTrip(n / 10);
      var a, b := IdText(n / 10), IdText(n % 10);
      assert (a + b)[..|a + b| - 1] == a;
      assert b == [['0', '1', '2', '3', '4', '5', '6', '7', '8', '9'][n % 10]];
    }
  }

  /** The `isLoggedIn` middleware: stop with 401 unless a user is logged in. */
  function IsLoggedIn(session: Option<User>): (gate: Option<Response>)
    ensures gate.None? <==> session.Some?
    ensures gate.Some? ==> gate.value.status == 401
  {
    if session.Some? then None else Some(NotAuthenticated)
  }

  /**
   * The server: the session of the client making the requests and the film
   * store.  A route's `fault` parameter is the database's error report for
   * the one statement the route runs.
   */
  class App {
    var session: Option<User>
    const store: FilmStore

    ghost predicate Valid()
      reads this, store
    {
      store.Valid()
    }

    constructor ()
      ensures Valid() && fresh(store)
      ensures session == None && store.rows == [] && store.nextId == 1
    {
      session := None;
      store := new FilmStore();
    }

    /** `GET /api/films`: the caller's films. */
    method GetFilms(fault: bool) returns (resp: Response)
      requires Valid()
      ensures session.None? ==> resp == NotAuthenticated
      ensures session.Some? && fault ==> resp == Response(500, Message("Database error while retrieving films"))
      ensures session.Some? && !fault ==> resp == Response(200, FilmList(SelectByUser(store.rows, session.value.id)))
    {
      var gate := IsLoggedIn(session);
      if gate.Some? {
        return gate.value;
      }
      if fault {
        return Response(500, Message("Database error while retrieving films"));
      }
      resp := Response(200, FilmList(SelectByUser(store.rows, session.value.id)));
    }

    /** `GET /api/films/:id`: the caller's film with this id, or 404 whether it is missing or someone else's. */
    method GetFilm(id: FilmId, fault: bool) returns (resp: Response)
      requires Valid()
      ensures session.None? ==> resp == NotAuthenticated
      ensures session.Some? && fault ==> resp == Response(500, Empty)
      ensures session.Some? && !fault && !Owns(store.rows, id, session.value.id) ==>
        resp == Response(404, Message(FilmNotFound))
      ensures session.Some? && !fault && Owns(store.rows, id, session.value.id) ==>
        && resp.status == 200 && resp.payload.OneFilm?
        && resp.payload.film.id == id && resp.payload.film.user == session.value.id
        && resp.payload == OneFilm(GetFilmById(store.rows, id, session.value.id).film)
    {
      var gate := IsLoggedIn(session);
      if gate.Some? {
        return gate.value;
      }
      if fault {
        return Response(500, Empty);
      }
      var result := GetFilmById(store.rows, id, session.value.id);
      if result.NotFound? {
        resp := Response(404, Message(FilmNotFound));
      } else {
        resp := Response(200, OneFilm(result.film));
      }
    }

    /**
     * `POST /api/films`: after the gate and the body check, inserts the
     * body's film owned by the session's user; 201, or 503 on a database error.
     */
    method PostFilm(b: Body, fault: bool) returns (resp: Response)
      requires Valid()
      modifies store
      ensures Valid()
      ensures session.Some? ==> forall v :: v != session.value.id ==>
        SelectByUser(store.rows, v) == SelectByUser(old(store.rows), v)
      ensures session.Some? ==> forall v, id2 :: v != session.value.id ==>
        GetFilmById(store.rows, id2, v) == GetFilmById(old(store.rows), id2, v)
      ensures session.None? ==> resp == NotAuthenticated && unchanged(store)
      ensures session.Some? && ValidateFilm(b).Err? ==>
        resp == Response(422, Invalid(ValidateFilm(b).error)) && unchanged(store)
      ensures session.Some? && ValidateFilm(b).Ok? && fault ==>
        resp == Response(503, Message("Database error during the creation of film undefined.")) && unchanged(store)
      ensures session.Some? && ValidateFilm(b).Ok? && !fault ==>
        && resp == Response(201, Empty)
        && store.rows == old(store.rows) + [NewRow(old(store.nextId), ValidateFilm(b).value, session.value.id)]
        && store.nextId == old(store.nextId) + 1
    {
      var gate := IsLoggedIn(session);
      if gate.Some? {
        return gate.value;
      }
      var checked := ValidateFilm(b);
      if checked.Err? {
        return Response(422, Invalid(checked.error));
      }
      var ok := store.CreateFilm(checked.value, session.value.id, fault);
      forall v | v != session.value.id
        ensures SelectByUser(store.rows, v) == SelectByUser(old(store.rows), v)
      {
        if ok {
          InsertInvisibleToOthers(old(store.rows), old(store.nextId), checked.value, session.value.id, v);
        }
      }
      forall v, id2 | v != session.value.id
        ensures GetFilmById(store.rows, id2, v) == GetFilmById(old(store.rows), id2, v)
      {
        if ok {
          InsertHiddenFromOthersLookup(old(store.rows), old(store.nextId), checked.value, session.value.id, id2, v);
        }
      }
      if ok {
        resp := Response(201, Empty);
      } else {
        resp := Response(503, Message("Database error during the creation of film undefined."));
      }
    }

    /**
     * `PUT /api/films/:id`: after the gate and the body check, overwrites the
     * caller's film with this id; 200 even when no row matched.
     */
    method PutFilm(id: FilmId, b: Body, fault: bool) returns (resp: Response)
      requires Valid()
      modifies store
      ensures Valid()
      ensures session.Some? ==> forall v :: v != session.value.id ==>
        SelectByUser(store.rows, v) == SelectByUser(old(store.rows), v)
      ensures session.Some? ==> forall v, id2 :: v != session.value.id ==>
        GetFilmById(store.rows, id2, v) == GetFilmById(old(store.rows), id2, v)
      ensures session.None? ==> resp == NotAuthenticated && unchanged(store)
      ensures session.Some? && ValidateFilm(b).Err? ==>
        resp == Response(422, Invalid(ValidateFilm(b).error)) && unchanged(store)
      ensures session.Some? && ValidateFilm(b).Ok? && fault ==>
        resp == Response(503, Message("Database error during the update of film " + IdText(id) + ".")) && unchanged(store)
      ensures session.Some? && ValidateFilm(b).Ok? && !fault ==>
        var d := ValidateFilm(b).value;
        && resp == Response(200, Empty)
        && store.rows == UpdateWhere(old(store.rows), id, session.value.id, SetAll(d.title, d.fav, d.date, d.rating))
        && store.nextId == old(store.nextId)
    {
      var gate := IsLoggedIn(session);
      if gate.Some? {
        return gate.value;
      }
      var checked := ValidateFilm(b);
      if checked.Err? {
        return Response(422, Invalid(checked.error));
      }
      var d := checked.value;
      var ok := store.UpdateFilm(id, d, session.value.id, fault);
      forall v | v != session.value.id
        ensures SelectByUser(store.rows, v) == SelectByUser(old(store.rows), v)
      {
        if ok {
          UpdateInvisibleToOthers(old(store.rows), id, session.value.id, SetAll(d.title, d.fav, d.date, d.rating), v);
        }
      }
      forall v, id2 | v != session.value.id
        ensures GetFilmById(store.rows, id2, v) == GetFilmById(old(store.rows), id2, v)
      {
        if ok {
          UpdateHiddenFromOthersLookup(old(store.rows), id, session.value.id, SetAll(d.title, d.fav, d.date, d.rating), id2, v);
        }
      }
      if ok {
        resp := Response(200, Empty);
      } else {
        resp := Response(503, Message("Database error during the update of film " + IdText(id) + "."));
      }
    }

    /** `DELETE /api/films/:id`: removes the caller's film with this id; 204 even when no row matched. */
    method DeleteFilm(id: FilmId, fault: bool) returns (resp: Response)
      requires Valid()
      modifies store
      ensures Valid()
      ensures session.Some? ==> forall v :: v != session.value.id ==>
        SelectByUser(store.rows, v) == SelectByUser(old(store.rows), v)
      ensures session.Some? ==> forall v, id2 :: v != session.value.id ==>
        GetFilmById(store.rows, id2, v) == GetFilmById(old(store.rows), id2, v)
      ensures session.None? ==> resp == NotAuthenticated && unchanged(store)
      ensures session.Some? && fault ==>
        resp == Response(503, Message("Database error during the deletion of film " + IdText(id) + ".")) && unchanged(store)
      ensures session.Some? && !fault ==>
        && resp == Response(204, Empty)
        && store.rows == DeleteWhere(old(store.rows), id, session.value.id)
        && store.nextId == old(store.nextId)
    {
      var gate := IsLoggedIn(session);
      if gate.Some? {
        return gate.value;
      }
      var ok := store.DeleteFilm(id, session.value.id, fault);
      forall v | v != session.value.id
        ensures SelectByUser(store.rows, v) == SelectByUser(old(store.rows), v)
      {
        if ok {
          DeleteInvisibleToOthers(old(store.rows), id, session.value.id, v);
        }
      }
      forall v, id2 | v != session.value.id
        ensures GetFilmById(store.rows, id2, v) == GetFilmById(old(store.rows), id2, v)
      {
        if ok {
          DeleteHiddenFromOthersLookup(old(store.rows), id, session.value.id, id2, v);
        }
      }
      if ok {
        resp := Response(204, Empty);
      } else {
        resp := Response(503, Message("Database error during the deletion of film " + IdText(id) + "."));
      }
    }

    /**
     * `PATCH /api/films/:id`: after the gate and the patch check, updates
     * the rating when one was sent and otherwise the favorite flag.
     */
    method PatchFilm(id: FilmId, b: Body, fault: bool) returns (resp: Response)
      requires Valid()
      modifies store
      ensures Valid()
      ensures session.Some? ==> forall v :: v != session.value.id ==>
        SelectByUser(store.rows, v) == SelectByUser(old(store.rows), v)
      ensures session.Some? ==> forall v, id2 :: v != session.value.id ==>
        GetFilmById(store.rows, id2, v) == GetFilmById(old(store.rows), id2, v)
      ensures session.None? ==> resp == NotAuthenticated && unchanged(store)
      ensures session.Some? && ValidatePatch(b).Err? ==>
        resp == Response(422, Invalid(ValidatePatch(b).error)) && unchanged(store)
      ensures session.Some? && ValidatePatch(b).Ok? && fault ==>
        resp == Response(503, Message("Database error during the update of film " + IdText(id) + ".")) && unchanged(store)
      ensures session.Some? && ValidatePatch(b).Ok? && !fault ==>
        && resp == Response(200, Empty)
        && store.rows == UpdateWhere(old(store.rows), id, session.value.id, ValidatePatch(b).value)
        && store.nextId == old(store.nextId)
    {
      var gate := IsLoggedIn(session);
      if gate.Some? {
        return gate.value;
      }
      var checked := ValidatePatch(b);
      if checked.Err? {
        return Response(422, Invalid(checked.error));
      }
      var ok;
      match checked.value {
        case SetFavorite(fav) =>
          ok := store.UpdateFavorite(fav, id, session.value.id, fault);
        case SetRating(rating) =>
          ok := store.UpdateRating(rating, id, session.value.id, fault);
      }
      forall v | v != session.value.id
        ensures SelectByUser(store.rows, v) == SelectByUser(old(store.rows), v)
      {
        if ok {
          UpdateInvisibleToOthers(old(store.rows), id, session.value.id, checked.value, v);
        }
      }
      forall v, id2 | v != session.value.id
        ensures GetFilmById(store.rows, id2, v) == GetFilmById(old(store.rows), id2, v)
      {
        if ok {
          UpdateHiddenFromOthersLookup(old(store.rows), id, session.value.id, checked.value, id2, v);
        }
      }
      if ok {
        resp := Response(200, Empty);
      } else {
        resp := Response(503, Message("Database error during the update of film " + IdText(id) + "."));
      }
    }

    /**
     * `GET /api/films/filter/:filter`: an unknown name is a 500 before the
     * store is read; a known one gives the caller's films the view keeps.
     */
    method GetFilteredFilms(name: string, today: int, fault: bool) returns (resp: Response)
      requires Valid()
      ensures session.None? ==> resp == NotAuthenticated
      ensures session.Some? && name !in FilterNames ==> resp == Response(500, Message("Undefined filter: " + name))
      ensures session.Some? && name in FilterNames && fault ==>
        resp == Response(500, Message("Database error while retrieving filtered films"))
      ensures session.Some? && name in FilterNames && !fault ==>
        && resp.status == 200 && resp.payload.FilmList?
        && resp.payload.films == FilterFilms(SelectByUser(store.rows, session.value.id), ParseFilter(name).value, today)
    {
      var gate := IsLoggedIn(session);
      if gate.Some? {
        return gate.value;
      }
      var kind := ParseFilter(name);
      if kind.None? {
        return Response(500, Message("Undefined filter: " + name));
      }
      if fault {
        return Response(500, Message("Database error while retrieving filtered films"));
      }
      resp := Response(200, FilmList(FilterFilms(SelectByUser(store.rows, session.value.id), kind.value, today)));
    }

    /**
     * `POST /api/sessions`: `verified` is the credential check's answer for
     * the submitted username and password.  A known user is logged in; an
     * unknown one gets 401 and the session stays as it was.
     */
    method PostSession(verified: Option<User>) returns (resp: Response)
      modifies this
      ensures verified.None? ==> resp == Response(401, Message("Incorrect username and/or password.")) && session == old(session)
      ensures verified.Some? ==> resp == Response(200, Identity(verified.value)) && session == verified
    {
      if verified.None? {
        return Response(401, Message("Incorrect username and/or password."));
      }
      session := verified;
      resp := Response(200, Identity(verified.value));
    }

    /** `DELETE /api/sessions/current`: ends the session, whether or not one was open. */
    method DeleteSession() returns (resp: Response)
      modifies this
      ensures session == None && resp == Response(200, Empty)
    {
      session := None;
      resp := Response(200, Empty);
    }

    /** `GET /api/sessions/current`: the logged-in user, or 401. */
    method GetSession() returns (resp: Response)
      ensures session.Some? ==> resp == Response(200, Identity(session.value))
      ensures session.None? ==> resp == Response(401, Message("Unauthenticated user!"))
    {
      if session.Some? {
        resp := Response(200, Identity(session.value));
      } else {
        resp := Response(401, Message("Unauthenticated user!"));
      }
    }
  }

  /**
   * A client session end to end: a failed login, then a film with no date
   * rated 5; `DuneViews` and `DuneRatingPatched` continue it.
   */
  method DuneScenario() returns (app: App)
    ensures app.Valid() && app.session == Some(User(1, "alice", "Alice"))
    ensures app.store.rows == [Row(1, "Dune", false, None, 5, 1)]
  {
    app := new App();
    var resp := app.PostSession(None);
    assert resp.status == 401;
    resp := app.GetFilms(false);
    assert resp.status == 401;

    resp := app.PostSession(Some(User(1, "alice", "Alice")));
    assert resp.status == 200;

    var body := Body(None, Some(JText("Dune")), Some(JBool(false)), None, Some(JInt(5)), Some(JInt(2)));
    resp := app.PostFilm(body, false);
    assert resp.status == 201;
    assert app.store.rows == [Row(1, "Dune", false, None, 5, 1)];
  }

  /** The new film, unseen and rated 5, is in "Best Rated" and "Unseen" and not in "Seen Last Month". */
  method DuneViews(app: App, today: int)
    requires app.Valid() && app.session == Some(User(1, "alice", "Alice"))
    requires app.store.rows == [Row(1, "Dune", false, None, 5, 1)]
  {
    var dune := Film(1, "Dune", false, None, 5, 1);
    assert SelectByUser(app.store.rows, 1) == [dune];
    var resp := app.GetFilteredFilms("Best Rated", today, false);
    assert resp.payload.films == [dune];
    resp := app.GetFilteredFilms("Unseen", today, false);
    assert resp.payload.films == [dune];
    resp := app.GetFilteredFilms("Seen Last Month", today, false);
    assert resp.payload.films == [];
  }

  /** Patching the rating to 3 takes the film out of the "Best Rated" view. */
  method DuneRatingPatched(app: App, today: int)
    requires app.Valid() && app.session == Some(User(1, "alice", "Alice"))
    requires app.store.rows == [Row(1, "Dune", false, None, 5, 1)]
    modifies app.store
  {
    var resp := app.PatchFilm(1, Body(None, None, None, None, Some(JInt(3)), None), false);
    assert resp.status == 200;
    assert app.store.rows == [Row(1, "Dune", false, None, 3, 1)];
    assert SelectByUser(app.store.rows, 1) == [Film(1, "Dune", false, None, 3, 1)];
    resp := app.GetFilteredFilms("Best Rated", today, false);
    assert resp.payload.films == [];
  }
}
