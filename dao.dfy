/**
 * The data-access layer of the film library: one table `films` with the
 * columns id, title, favorite, watchdate, rating and user.  Every statement
 * the layer runs is scoped by `where ... user = ?`, so a film that belongs
 * to someone else is, to the caller, exactly a film that does not exist.
 *
 * Reads are pure queries over the rows; writes are methods of `FilmStore`,
 * which holds the table in place.
 */
module Dao {
  import opened Common

  type UserId = int
  type FilmId = int

  /** One row of the `films` table. `None` in `watchdate` is SQL NULL. */
  datatype Row = Row(id: FilmId, title: string, favorite: bool, watchdate: Option<string>, rating: int, user: UserId)

  /** A film as the layer hands it out: the row with `favorite` renamed `fav` and `watchdate` renamed `date`. */
  datatype Film = Film(id: FilmId, title: string, fav: bool, date: Option<string>, rating: int, user: UserId)

  /** The client-controlled fields of a film: no id and no owner. */
  datatype Draft = Draft(title: string, fav: bool, date: Option<string>, rating: int)

  /** What `getFilmById` resolves to: the film, or `{error: 'Film not found.'}`. */
  datatype Lookup = Found(film: Film) | NotFound

  const FilmNotFound := "Film not found."

  /** The assignment part of the three UPDATE statements. */
  datatype Change =
    | SetAll(title: string, fav: bool, date: Option<string>, rating: int)
    | SetFavorite(fav: bool)
    | SetRating(rating: int)

  function AsFilm(r: Row): Film {
    Film(r.id, r.title, r.favorite, r.watchdate, r.rating, r.user)
  }

  /** The `where id = ? and user = ?` condition. */
  predicate Matches(r: Row, id: FilmId, u: UserId) {
    r.id == id && r.user == u
  }

  /** Some row has this id and belongs to this user. */
  predicate Owns(rows: seq<Row>, id: FilmId, u: UserId) {
    exists i :: 0 <= i < |rows| && Matches(rows[i], id, u)
  }

  predicate IdsIncreasing(rows: seq<Row>) {
    forall i, j :: 0 <= i < j < |rows| ==> rows[i].id < rows[j].id
  }

  /** The row inserted by `createFilm`: the draft's fields, the owner passed in, the id the table assigns. */
  function NewRow(id: FilmId, d: Draft, u: UserId): Row {
    Row(id, d.title, d.fav, d.date, d.rating, u)
  }

  /** `select * from films where user = ?`, each row mapped to a film. */
  function SelectByUser(rows: seq<Row>, u: UserId): (films: seq<Film>)
    ensures |films| <= |rows|
    ensures forall f :: f in films ==> f.user == u
    ensures forall r :: r in rows && r.user == u ==> AsFilm(r) in films
    ensures forall f :: f in films ==> exists r :: r in rows && r.user == u && AsFilm(r) == f
  {
    if rows == [] then []
    else (if rows[0].user == u then [AsFilm(rows[0])] else []) + SelectByUser(rows[1..], u)
  }

  /** `select * from films where id = ? and user = ?`: the first matching row, if any. */
  function FindRow(rows: seq<Row>, id: FilmId, u: UserId): (found: Option<Row>)
    ensures found.Some? <==> Owns(rows, id, u)
    ensures found.Some? ==> found.value in rows && Matches(found.value, id, u)
  {
    if rows == [] then None
    else if Matches(rows[0], id, u) then Some(rows[0])
    else
      var rest := FindRow(rows[1..], id, u);
      assert Owns(rows[1..], id, u) ==> Owns(rows, id, u);
      assert Owns(rows, id, u) ==> Owns(rows[1..], id, u) by {
        if Owns(rows, id, u) {
          var i :| 0 <= i < |rows| && Matches(rows[i], id, u);
          assert i > 0 && Matches(rows[1..][i - 1], id, u);
        }
      }
      rest
  }

  /** `getFilmById`: the matching film, or "not found" for a missing id and a foreign id alike. */
  function GetFilmById(rows: seq<Row>, id: FilmId, u: UserId): (res: Lookup)
    ensures res.Found? <==> Owns(rows, id, u)
    ensures res.Found? ==> res.film.id == id && res.film.user == u
    ensures res.Found? ==> exists r :: r in rows && Matches(r, id, u) && AsFilm(r) == res.film
  {
    match FindRow(rows, id, u)
    case Some(r) => Found(AsFilm(r))
    case None => NotFound
  }

  /** The row after an UPDATE's assignments; id and user are never assigned. */
  function Apply(r: Row, c: Change): (res: Row)
    ensures res.id == r.id && res.user == r.user
    ensures c.SetFavorite? ==> res.title == r.title && res.watchdate == r.watchdate && res.rating == r.rating
    ensures c.SetRating? ==> res.title == r.title && res.watchdate == r.watchdate && res.favorite == r.favorite
  {
    match c
    case SetAll(t, f, d, rt) => r.(title := t, favorite := f, watchdate := d, rating := rt)
    case SetFavorite(f) => r.(favorite := f)
    case SetRating(rt) => r.(rating := rt)
  }

  /** `update films set ... where id = ? and user = ?`: matching rows change, all others stay. */
  function UpdateWhere(rows: seq<Row>, id: FilmId, u: UserId, c: Change): (res: seq<Row>)
    ensures |res| == |rows|
    ensures forall i :: 0 <= i < |rows| ==>
      res[i] == if Matches(rows[i], id, u) then Apply(rows[i], c) else rows[i]
  {
    if rows == [] then []
    else [if Matches(rows[0], id, u) then Apply(rows[0], c) else rows[0]] + UpdateWhere(rows[1..], id, u, c)
  }

  /** `delete from films where id = ? and user = ?`: the rows that do not match, in their order. */
  function DeleteWhere(rows: seq<Row>, id: FilmId, u: UserId): (res: seq<Row>)
    ensures IsSubsequence(res, rows)
    ensures forall r :: r in res <==> r in rows && !Matches(r, id, u)
  {
    if rows == [] then []
    else
      var rest := DeleteWhere(rows[1..], id, u);
      SubsequenceMembers(rest, rows[1..]);
      if Matches(rows[0], id, u) then rest
      else
        assert ([rows[0]] + rest)[1..] == rest;
        [rows[0]] + rest
  }

  // ---------------------------------------------------------------------------
  // Owner isolation: a write by one user never changes what another user sees,
  // and an id the caller does not own behaves like a missing id.
  // ---------------------------------------------------------------------------

  lemma {:induction false} SelectDistributes(a: seq<Row>, b: seq<Row>, u: UserId)
    ensures SelectByUser(a + b, u) == SelectByUser(a, u) + SelectByUser(b, u)
  {
    if a != [] {
      SelectDistributes(a[1..], b, u);
      assert (a + b)[0] == a[0] && (a + b)[1..] == a[1..] + b;
    } else {
      assert a + b == b;
    }
  }

  /** An insert on behalf of `u` leaves every other user's film list as it was. */
  lemma InsertInvisibleToOthers(rows: seq<Row>, id: FilmId, d: Draft, u: UserId, v: UserId)
    requires v != u
    ensures SelectByUser(rows + [NewRow(id, d, u)], v) == SelectByUser(rows, v)
  {
    SelectDistributes(rows, [NewRow(id, d, u)], v);
    assert SelectByUser([NewRow(id, d, u)], v) == [];
  }

  /** An update on behalf of `u` leaves every other user's film list as it was. */
  lemma {:induction false} UpdateInvisibleToOthers(rows: seq<Row>, id: FilmId, u: UserId, c: Change, v: UserId)
    requires v != u
    ensures SelectByUser(UpdateWhere(rows, id, u, c), v) == SelectByUser(rows, v)
  {
    if rows != [] {
      UpdateInvisibleToOthers(rows[1..], id, u, c, v);
      var res := UpdateWhere(rows, id, u, c);
      assert res[1..] == UpdateWhere(rows[1..], id, u, c);
    }
  }

  /** A delete on behalf of `u` leaves every other user's film list as it was. */
  lemma {:induction false} DeleteInvisibleToOthers(rows: seq<Row>, id: FilmId, u: UserId, v: UserId)
    requires v != u
    ensures SelectByUser(DeleteWhere(rows, id, u), v) == SelectByUser(rows, v)
  {
    if rows != [] {
      DeleteInvisibleToOthers(rows[1..], id, u, v);
      var rest := DeleteWhere(rows[1..], id, u);
      if !Matches(rows[0], id, u) {
        assert ([rows[0]] + rest)[1..] == rest;
      }
    }
  }

  /** An insert on behalf of `u` leaves every other user's lookup of any id as it was. */
  lemma {:induction false} InsertHiddenFromOthersLookup(rows: seq<Row>, id: FilmId, d: Draft, u: UserId, id2: FilmId, v: UserId)
    requires v != u
    ensures FindRow(rows + [NewRow(id, d, u)], id2, v) == FindRow(rows, id2, v)
    ensures GetFilmById(rows + [NewRow(id, d, u)], id2, v) == GetFilmById(rows, id2, v)
  {
    if rows != [] {
      assert (rows + [NewRow(id, d, u)])[1..] == rows[1..] + [NewRow(id, d, u)];
      InsertHiddenFromOthersLookup(rows[1..], id, d, u, id2, v);
    }
  }

  /** An update on behalf of `u` leaves every other user's lookup of any id as it was. */
  lemma {:induction false} UpdateHiddenFromOthersLookup(rows: seq<Row>, id: FilmId, u: UserId, c: Change, id2: FilmId, v: UserId)
    requires v != u
    ensures FindRow(UpdateWhere(rows, id, u, c), id2, v) == FindRow(rows, id2, v)
    ensures GetFilmById(UpdateWhere(rows, id, u, c), id2, v) == GetFilmById(rows, id2, v)
  {
    if rows != [] {
      var res := UpdateWhere(rows, id, u, c);
      assert res[1..] == UpdateWhere(rows[1..], id, u, c);
      UpdateHiddenFromOthersLookup(rows[1..], id, u, c, id2, v);
    }
  }

  /** A delete on behalf of `u` leaves every other user's lookup of any id as it was. */
  lemma {:induction false} DeleteHiddenFromOthersLookup(rows: seq<Row>, id: FilmId, u: UserId, id2: FilmId, v: UserId)
    requires v != u
    ensures FindRow(DeleteWhere(rows, id, u), id2, v) == FindRow(rows, id2, v)
    ensures GetFilmById(DeleteWhere(rows, id, u), id2, v) == GetFilmById(rows, id2, v)
  {
    if rows != [] {
      DeleteHiddenFromOthersLookup(rows[1..], id, u, id2, v);
      var rest := DeleteWhere(rows[1..], id, u);
      if !Matches(rows[0], id, u) {
        assert ([rows[0]] + rest)[1..] == rest;
      }
    }
  }

  /**
   * When the caller owns no row with this id (the id is missing, or belongs
   * to another user), a lookup finds nothing and every write is a no-op.
   */
  lemma {:induction false} UnownedIdIsNoOp(rows: seq<Row>, id: FilmId, u: UserId, c: Change)
    requires !Owns(rows, id, u)
    ensures GetFilmById(rows, id, u) == NotFound
    ensures UpdateWhere(rows, id, u, c) == rows
    ensures DeleteWhere(rows, id, u) == rows
  {
    if rows != [] {
      forall i | 0 <= i < |rows[1..]|
        ensures !Matches(rows[1..][i], id, u)
      {
        assert rows[1..][i] == rows[i + 1];
      }
      assert !Matches(rows[0], id, u);
      UnownedIdIsNoOp(rows[1..], id, u, c);
      assert rows == [rows[0]] + rows[1..];
    }
  }

  // ---------------------------------------------------------------------------
  // What a lookup sees after each write.
  // ---------------------------------------------------------------------------

  /** A film inserted under a fresh id is found again, by its owner, exactly as drafted. */
  lemma {:induction false} CreateThenGet(rows: seq<Row>, id: FilmId, d: Draft, u: UserId)
    requires forall r :: r in rows ==> r.id < id
    ensures GetFilmById(rows + [NewRow(id, d, u)], id, u) == Found(Film(id, d.title, d.fav, d.date, d.rating, u))
  {
    FindAfterInsert(rows, NewRow(id, d, u));
  }

  lemma {:induction false} FindAfterInsert(rows: seq<Row>, r: Row)
    requires forall x :: x in rows ==> x.id < r.id
    ensures FindRow(rows + [r], r.id, r.user) == Some(r)
  {
    if rows != [] {
      assert (rows + [r])[1..] == rows[1..] + [r];
      FindAfterInsert(rows[1..], r);
    }
  }

  /** After an update, a lookup of the same (id, user) finds the changed row, or still nothing. */
  lemma {:induction false} FindAfterUpdate(rows: seq<Row>, id: FilmId, u: UserId, c: Change)
    ensures FindRow(UpdateWhere(rows, id, u, c), id, u) ==
            match FindRow(rows, id, u)
            case Some(r) => Some(Apply(r, c))
            case None => None
  {
    if rows != [] {
      var res := UpdateWhere(rows, id, u, c);
      assert res[1..] == UpdateWhere(rows[1..], id, u, c);
      FindAfterUpdate(rows[1..], id, u, c);
    }
  }

  /** After a delete, the deleted (id, user) is not found. */
  lemma DeleteThenGet(rows: seq<Row>, id: FilmId, u: UserId)
    ensures GetFilmById(DeleteWhere(rows, id, u), id, u) == NotFound
  {
    var res := DeleteWhere(rows, id, u);
    forall i | 0 <= i < |res|
      ensures !Matches(res[i], id, u)
    {
      assert res[i] in res;
    }
  }

  /**
   * Replacing a film with the values it already has changes nothing: with
   * unique ids, the one matching row is rewritten to itself.
   */
  lemma ReplaceWithStoredValues(rows: seq<Row>, id: FilmId, u: UserId, f: Film)
    requires IdsIncreasing(rows)
    requires GetFilmById(rows, id, u) == Found(f)
    ensures UpdateWhere(rows, id, u, SetAll(f.title, f.fav, f.date, f.rating)) == rows
  {
    var c := SetAll(f.title, f.fav, f.date, f.rating);
    var res := UpdateWhere(rows, id, u, c);
    var r :| r in rows && Matches(r, id, u) && AsFilm(r) == f;
    forall i | 0 <= i < |rows|
      ensures res[i] == rows[i]
    {
      if Matches(rows[i], id, u) {
        var k :| 0 <= k < |rows| && rows[k] == r;
        assert rows[k].id == rows[i].id;
        assert k == i;
      }
    }
  }

  /** Updating never assigns an id, so increasing ids below a bound stay so. */
  lemma UpdateKeepsIds(rows: seq<Row>, id: FilmId, u: UserId, c: Change, bound: FilmId)
    requires IdsIncreasing(rows)
    requires forall r :: r in rows ==> 1 <= r.id < bound
    ensures IdsIncreasing(UpdateWhere(rows, id, u, c))
    ensures forall r :: r in UpdateWhere(rows, id, u, c) ==> 1 <= r.id < bound
  {
    var res := UpdateWhere(rows, id, u, c);
    assert forall i :: 0 <= i < |res| ==> res[i].id == rows[i].id by {
      forall i | 0 <= i < |res|
        ensures res[i].id == rows[i].id
      {
        if Matches(rows[i], id, u) {
          assert res[i] == Apply(rows[i], c);
        }
      }
    }
    forall i, j | 0 <= i < j < |res|
      ensures res[i].id < res[j].id
    {
    }
    forall r | r in res
      ensures 1 <= r.id < bound
    {
      var i :| 0 <= i < |res| && res[i] == r;
      assert rows[i] in rows;
    }
  }

  lemma PrependKeepsIdOrder(x: Row, rest: seq<Row>)
    requires IdsIncreasing(rest)
    requires forall r :: r in rest ==> x.id < r.id
    ensures IdsIncreasing([x] + rest)
  {
    var res := [x] + rest;
    forall i, j | 0 <= i < j < |res|
      ensures res[i].id < res[j].id
    {
      assert res[j] == rest[j - 1];
      if i == 0 {
        assert rest[j - 1] in rest;
      } else {
        assert res[i] == rest[i - 1];
      }
    }
  }

  /** Deleting keeps the ids in increasing order, since it keeps a subsequence of the rows. */
  lemma {:induction false} DeleteKeepsIdOrder(rows: seq<Row>, id: FilmId, u: UserId)
    requires IdsIncreasing(rows)
    ensures IdsIncreasing(DeleteWhere(rows, id, u))
  {
    if rows != [] {
      var rest := DeleteWhere(rows[1..], id, u);
      DeleteKeepsIdOrder(rows[1..], id, u);
      if !Matches(rows[0], id, u) {
        forall r | r in rest
          ensures rows[0].id < r.id
        {
          var k :| 0 <= k < |rows[1..]| && rows[1..][k] == r;
          assert rows[k + 1] == r;
        }
        PrependKeepsIdOrder(rows[0], rest);
        assert DeleteWhere(rows, id, u) == [rows[0]] + rest;
      }
    }
  }

  /**
   * The `films` table.  Rows are kept in id order; `nextId` is the id the
   * table gives the next inserted row, larger than every id in use.
   */
  class FilmStore {
    var rows: seq<Row>
    var nextId: FilmId

    ghost predicate Valid()
      reads this
    {
      && IdsIncreasing(rows)
      && 1 <= nextId
      && (forall r :: r in rows ==> 1 <= r.id < nextId)
    }

    constructor ()
      ensures Valid()
      ensures rows == [] && nextId == 1
    {
      rows := [];
      nextId := 1;
    }

    /**
     * `createFilm`: inserts one row owned by `userId` with the draft's fields
     * under a fresh id.  `fault` is the database's error report; on an error
     * nothing is inserted and the call fails.
     */
    method CreateFilm(film: Draft, userId: UserId, fault: bool) returns (ok: bool)
      requires Valid()
      modifies this
      ensures Valid()
      ensures ok == !fault
      ensures ok ==> rows == old(rows) + [NewRow(old(nextId), film, userId)] && nextId == old(nextId) + 1
      ensures ok ==> forall r :: r in old(rows) ==> r.id != old(nextId)
      ensures !ok ==> unchanged(this)
    {
      if fault {
        return false;
      }
      rows := rows + [NewRow(nextId, film, userId)];
      nextId := nextId + 1;
      ok := true;
    }

    /**
     * `updateFilm`: overwrites title, favorite, watchdate and rating of the
     * row with this id owned by `userId`.  The number of rows changed is not
     * looked at, so a missing or foreign id succeeds without effect.
     */
    method UpdateFilm(id: FilmId, film: Draft, userId: UserId, fault: bool) returns (ok: bool)
      requires Valid()
      modifies this
      ensures Valid()
      ensures ok == !fault
      ensures ok ==> rows == UpdateWhere(old(rows), id, userId, SetAll(film.title, film.fav, film.date, film.rating))
      ensures !ok ==> unchanged(this)
      ensures nextId == old(nextId)
    {
      ok := Update(id, userId, SetAll(film.title, film.fav, film.date, film.rating), fault);
    }

    /** `updateFavorite`: sets only the favorite column of the matching row. */
    method UpdateFavorite(fav: bool, id: FilmId, userId: UserId, fault: bool) returns (ok: bool)
      requires Valid()
      modifies this
      ensures Valid()
      ensures ok == !fault
      ensures ok ==> rows == UpdateWhere(old(rows), id, userId, SetFavorite(fav))
      ensures !ok ==> unchanged(this)
      ensures nextId == old(nextId)
    {
      ok := Update(id, userId, SetFavorite(fav), fault);
    }

    /** `updateRating`: sets only the rating column of the matching row. */
    method UpdateRating(rating: int, id: FilmId, userId: UserId, fault: bool) returns (ok: bool)
      requires Valid()
      modifies this
      ensures Valid()
      ensures ok == !fault
      ensures ok ==> rows == UpdateWhere(old(rows), id, userId, SetRating(rating))
      ensures !ok ==> unchanged(this)
      ensures nextId == old(nextId)
    {
      ok := Update(id, userId, SetRating(rating), fault);
    }

    /** Runs one UPDATE statement. */
    method Update(id: FilmId, userId: UserId, c: Change, fault: bool) returns (ok: bool)
      requires Valid()
      modifies this
      ensures Valid()
      ensures ok == !fault
      ensures ok ==> rows == UpdateWhere(old(rows), id, userId, c)
      ensures !ok ==> unchanged(this)
      ensures nextId == old(nextId)
    {
      if fault {
        return false;
      }
      UpdateKeepsIds(rows, id, userId, c, nextId);
      rows := UpdateWhere(rows, id, userId, c);
      ok := true;
    }

    /**
     * `deleteFilm`: removes the row with this id owned by `userId`; a missing
     * or foreign id succeeds without effect.
     */
    method DeleteFilm(id: FilmId, userId: UserId, fault: bool) returns (ok: bool)
      requires Valid()
      modifies this
      ensures Valid()
      ensures ok == !fault
      ensures ok ==> rows == DeleteWhere(old(rows), id, userId)
      ensures !ok ==> unchanged(this)
      ensures nextId == old(nextId)
    {
      if fault {
        return false;
      }
      DeleteKeepsIdOrder(rows, id, userId);
      rows := DeleteWhere(rows, id, userId);
      ok := true;
    }
  }
}
