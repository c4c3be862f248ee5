# Film library server, modelled in Dafny

This project models the server side of a personal film library. Logged-in users keep films with a title, a favorite flag, an optional watch date and a 0–5 rating. They read the films back through five named views. The model covers two pieces:

- **The data-access layer** (`server/dao.js`). The `films` table is a sequence of rows `{id, title, favorite, watchdate, rating, user}` held by the class `Dao.FilmStore`, in id order, with a counter `nextId` for the id the table assigns on insert. The two reads, `getAllFilms` and `getFilmById`, are pure functions over the rows. The five writes are methods that reassign the rows: `createFilm`, `updateFilm`, `updateFavorite`, `updateRating` and `deleteFilm`. Every statement is scoped by `where ... user = ?`. The central guarantee is owner isolation, and it is proved: a film of another user behaves exactly like a missing film, and a write by one user changes neither another user's film list (and so none of that user's filter views) nor that user's lookup of any single film. The code never looks at the number of affected rows. So an update or delete on a missing or foreign id is a silent no-op that still succeeds, and the model says so.
- **The request handlers** (`server/server.js`), as the class `Server.App`. It holds the session (an optional logged-in user) and the store. Each `/api/films...` route first runs the `isLoggedIn` gate (401). Create and replace then run the validation chain: rating is an integer in 0..5, title is non-empty, fav is a boolean, and date is absent or a strict `YYYY-MM-DD`. Any failure gives 422 with the failing fields. PATCH checks fav and rating only when they are sent, and a sent rating takes precedence over fav. The filter route accepts exactly five names and answers 500 for any other name before reading the store. Otherwise it returns an order-preserving filter of the caller's films. The owner of a created or updated film is always the session's user. The body's `user` and `id` fields are never read.

Modules, one file each: `Common` (option, result, subsequence), `Dates` (strict date check and day numbers), `Dao`, `Validation`, `Filters`, `Server`.

Environment inputs are parameters:
- `fault: bool` on each store call and read route is the database's error report for that statement.
- `today: int` is the current day as a day number.
- `verified: Option<User>` is the credential store's answer to a login.

Three behaviours of the code depart from what a client would plausibly expect; the model follows the code:
- Replace, patch and delete never report "not found": when no row of the caller matches the id, they still answer 200 or 204 and change nothing.
- "Seen Last Month" is the test `today - date <= 30`, so it also admits dates after today.
- PATCH has a precedence rule for a body that sends both fields (rating wins), but nothing rejects a body that sends neither: an empty PATCH gets through to `updateFavorite`; see Findings.

## Model

| member | source | states |
|---|---|---|
| `Dao.SelectByUser` | server/dao.js:11-25 | the list holds exactly the rows whose user is the caller, each mapped favorite→fav and watchdate→date; no other user's row appears |
| `Dao.FindRow` | server/dao.js:30-41 | a row is found iff some row matches both id and user, and the row found matches both |
| `Dao.GetFilmById` | server/dao.js:28-44 | the film is returned iff a row matches both id and user; otherwise "Film not found.", the same for a missing id and a foreign id |
| `Dao.UpdateWhere` | server/dao.js:63-65 | exactly the rows matching (id, user) receive the assignments; every other row is unchanged and the table keeps its length |
| `Dao.DeleteWhere` | server/dao.js:78-79 | the result keeps, in order, exactly the rows not matching (id, user) |
| `Dao.Apply` | server/dao.js:61-116 | the three UPDATE statements (lines 63, 93, 107) never assign id or user; the favorite update changes only favorite and the rating update only rating |
| `Dao.InsertInvisibleToOthers` | server/dao.js:49-50 | an insert for one user leaves every other user's film list unchanged |
| `Dao.UpdateInvisibleToOthers` | server/dao.js:63-65 | an update for one user leaves every other user's film list unchanged |
| `Dao.DeleteInvisibleToOthers` | server/dao.js:78-79 | a delete for one user leaves every other user's film list unchanged |
| `Dao.InsertHiddenFromOthersLookup` | server/dao.js:49-50 | an insert for one user leaves every other user's lookup of every id unchanged |
| `Dao.UpdateHiddenFromOthersLookup` | server/dao.js:63-65 | an update for one user leaves every other user's lookup of every id unchanged |
| `Dao.DeleteHiddenFromOthersLookup` | server/dao.js:78-79 | a delete for one user leaves every other user's lookup of every id unchanged |
| `Dao.UnownedIdIsNoOp` | server/dao.js:28-88 | for an id the caller does not own (missing or foreign), get gives "not found" and update and delete leave the table unchanged |
| `Dao.CreateThenGet` | server/dao.js:47-58 | a film inserted under a fresh id is found by its owner with exactly the drafted title, fav, date and rating |
| `Dao.FindAfterInsert` | server/dao.js:49-50 | a row appended under an id larger than all others is the row found for that id and owner |
| `Dao.FindAfterUpdate` | server/dao.js:63-65 | after an update, the lookup of the same (id, user) finds the old row with the assignments applied, or still nothing |
| `Dao.DeleteThenGet` | server/dao.js:76-88 | after a delete, the deleted (id, user) is not found |
| `Dao.ReplaceWithStoredValues` | server/dao.js:61-73 | replacing a film with the values it already holds leaves the table unchanged |
| `Dao.DeleteKeepsIdOrder` | server/dao.js:78-79 | deleting rows keeps the ids in increasing order |
| `Dao.FilmStore.constructor` | server/dao.js:7 | the store starts empty, with the first id to assign being 1 |
| `Dao.FilmStore.CreateFilm` | server/dao.js:47-58 | on success exactly one row is appended: the draft's fields, owner `userId`, a fresh id; on a database error the table is unchanged |
| `Dao.FilmStore.UpdateFilm` | server/dao.js:61-73 | on success the table is the full update on (id, userId); a missing or foreign id still succeeds; on a database error the table is unchanged |
| `Dao.FilmStore.UpdateFavorite` | server/dao.js:91-102 | on success only the favorite column of the row matching (id, userId) changes |
| `Dao.FilmStore.UpdateRating` | server/dao.js:105-116 | on success only the rating column of the row matching (id, userId) changes |
| `Dao.FilmStore.Update` | server/dao.js:61-116 | the shared step of the three updates: on success the table is the update on (id, userId) with the given assignments and the id counter stays; on a database error nothing changes |
| `Dao.FilmStore.DeleteFilm` | server/dao.js:76-88 | on success exactly the row matching (id, userId) is removed; a missing or foreign id still succeeds |
| `Dates.IsStrictDate` | server/server.js:105 | a date passes iff it is ten characters `YYYY-MM-DD` of digits and dashes naming a real Gregorian day (month 1..12, day within the month, 29 February only in leap years) |
| `Dates.ParseDate` | server/server.js:207 | a stored date has a day number iff it is a strict `YYYY-MM-DD` date, and that number lies within the date's year |
| `Dates.LaterDateLargerDay` | server/server.js:207 | a later calendar date has a larger day number |
| `Dates.NextDayInMonth` | server/server.js:207 | day d + 1 of a month has the day number of day d plus one |
| `Dates.NextDayAcrossMonth` | server/server.js:207 | the first of a month has the day number of the last day of the previous month plus one |
| `Dates.NextDayAcrossYear` | server/server.js:207 | 1 January has the day number of the previous 31 December plus one; with the two lemmas above, the difference of two day numbers counts calendar days |
| `Validation.RatingOk` | server/server.js:102 | the rating check passes iff the field is sent and is an integer from 0 to 5 |
| `Validation.TitleOk` | server/server.js:103 | the title check passes iff the field is sent and is a non-empty string |
| `Validation.FavOk` | server/server.js:104 | the fav check passes iff the field is sent and is a boolean |
| `Validation.DateOk` | server/server.js:105 | the date check passes iff the field is absent or is a string that is a strict date |
| `Validation.FilmErrors` | server/server.js:101-105 | the 422 list names exactly the fields whose check fails, each once |
| `Validation.ValidateFilm` | server/server.js:101-117 | a body is accepted iff all four checks pass, and the draft is then exactly the body's title, fav, date and rating; otherwise every failing field is listed |
| `Validation.IdAndUserIgnored` | server/server.js:112-117 | the body's `id` and `user` fields make no difference to the validated draft |
| `Validation.PatchErrors` | server/server.js:169-176 | fav and rating are each rejected only when sent and invalid; title and date are never checked |
| `Validation.PatchCallAsWritten` | server/server.js:178-183 | as written: with a rating the rating is updated; without one the favorite is updated with whatever fav holds, even nothing |
| `Validation.ValidatePatch` | server/server.js:169-183 | a patch is accepted iff its sent fields are valid and at least one is sent; a sent rating always wins over fav |
| `Validation.EmptyPatchReachesUpdateFavorite` | server/server.js:179-180 | an empty PATCH body passes the checks and reaches `updateFavorite` with no value, while the intended dispatch rejects it |
| `Validation.PatchAgreesWhenAFieldIsSent` | server/server.js:179-183 | whenever fav or rating is sent, the intended dispatch makes exactly the call the route makes |
| `Validation.RatingTakesPrecedence` | server/server.js:179-183 | with a valid rating sent, sending a valid fav or none gives the same rating-only update |
| `Filters.ParseFilter` | server/server.js:193-196 | a name is known iff it is one of the five listed names, and it names that view |
| `Filters.NamesRoundTrip` | server/server.js:194 | every view's name is accepted as that view |
| `Filters.SeenWithin30Days` | server/server.js:207 | a film is seen last month iff it has a date, the date can be read, and today minus that day is at most 30; an unreadable date fails, as a NaN comparison does |
| `Filters.NoDate` | server/server.js:209 | a film is unseen iff its date is null or the empty text, the two values `!(f.date)` takes as true |
| `Filters.Keeps` | server/server.js:199-211 | each of the five views keeps a film by its own test: all; fav; rating exactly 5; seen within 30 days; no date |
| `Filters.FilterFilms` | server/server.js:197-212 | the result is an order-preserving subsequence of the films holding exactly those the view keeps |
| `Filters.AllKeepsEverything` | server/server.js:200 | `All` returns the films unchanged |
| `Filters.FavoritesExactlyFav` | server/server.js:201-202 | `Favorites` keeps exactly the favorite films |
| `Filters.BestRatedExactlyFive` | server/server.js:203-205 | `Best Rated` keeps exactly the films rated 5 |
| `Filters.UnseenExactlyNoDate` | server/server.js:208-209 | `Unseen` keeps exactly the films with no date |
| `Filters.SeenAndUnseenDisjoint` | server/server.js:206-209 | no film is in both `Seen Last Month` and `Unseen`; a film without a date is never in `Seen Last Month` |
| `Filters.ViewsStayWithOwner` | server/server.js:197-198 | every view over a user's films holds only that user's films |
| `Server.IdText` | server/server.js:153-187 | the id in the 503 messages of replace, delete and patch is written in decimal: non-empty, digits only for a non-negative id |
| `Server.IdTextRoundTrip` | server/server.js:153-187 | reading the decimal text of a non-negative id back gives the id |
| `Server.IsLoggedIn` | server/server.js:58-62 | the request goes on iff a user is logged in; otherwise it stops with 401 |
| `Server.App.constructor` | server/server.js:65-74 | the server starts with no one logged in and an empty store |
| `Server.App.GetFilms` | server/server.js:80-84 | 401 without a session; 500 on a database error; otherwise 200 with exactly the caller's films |
| `Server.App.GetFilm` | server/server.js:87-98 | 401 without a session; 500 on a database error; 404 when the caller owns no film with the id; otherwise 200 with the caller's film |
| `Server.App.PostFilm` | server/server.js:101-126 | 401, then 422 with the failing fields, with the store untouched; 503 on a database error; otherwise 201 and one row appended with the session's user as owner; no other user's list or single-film lookup changes |
| `Server.App.PutFilm` | server/server.js:129-155 | 401, then 422, with the store untouched; 503 on a database error; otherwise 200 and the full update on (path id, session user), even if nothing matched; no other user's list or single-film lookup changes |
| `Server.App.DeleteFilm` | server/server.js:158-166 | 401 with the store untouched; 503 on a database error; otherwise 204 and the delete on (path id, session user); no other user's list or single-film lookup changes |
| `Server.App.PatchFilm` | server/server.js:169-189 | 401, then 422, with the store untouched; 503 on a database error; otherwise 200 and a rating-only or favorite-only update of (path id, session user); no other user's list or single-film lookup changes |
| `Server.App.GetFilteredFilms` | server/server.js:192-215 | 401; 500 for an unknown name, before the store is read; 500 on a database error; otherwise 200 with the view applied to the caller's films |
| `Server.App.PostSession` | server/server.js:222-240 | unknown credentials give 401 and leave the session as it was; a known user is logged in and returned with 200 |
| `Server.App.DeleteSession` | server/server.js:244-246 | logout always ends the session and answers 200 |
| `Server.App.GetSession` | server/server.js:250-254 | 200 with the logged-in user, or 401 |

## Left out

- Framework and transport are left out: Express routing, morgan, CORS, cookies, `app.listen` and `console.log`. A route is a method of `Server.App`, and its path parameter is an integer argument.
- Passport, the session store and `user-dao` are not part of this model. The credential check's answer is the `verified` argument of `PostSession`. The session is one optional user for the client making the requests, set by login and cleared by logout. Errors inside passport's login callback (`next(err)`) are not modelled.
- The SQLite engine is left out. A database error is the `fault` argument and leaves the table unchanged. Row order is id order; SQL itself guarantees no order without `order by`.
- Id assignment is a counter that is never reused. A table without `AUTOINCREMENT` may reuse the largest id after it is deleted. The table's schema and the pre-existing content of `films.db` are not part of this model, so the store starts empty.
- dayjs and the wall clock are left out. `today` is a day number passed in. Stored dates are read only in strict `YYYY-MM-DD` form. A date text that dayjs would still parse in another shape counts as unreadable. The time of day is not modelled.
- express-validator's coercions are left out. Body fields are typed JSON values. Only a JSON integer passes the rating check, only a JSON boolean passes the fav check, and only a JSON string passes the title check. Strings such as `"3"` or `"true"` and non-string titles, which the library would also accept, are not modelled.
- A non-numeric path id is not modelled. It matches no row, which is how the model treats a missing id.
- `Server.App.PatchFilm`: follows the corrected dispatch `Validation.ValidatePatch`, so an empty body gives 422 rather than reaching `updateFavorite`. The as-written behaviour is `Validation.PatchCallAsWritten`; see Findings.
- The exact error texts are reproduced where the route writes a constant or the id. The JSON key (`error` or `errors`) and express-validator's per-error objects are reduced to the message text and the list of failing fields.

## Findings

| source | as written | input that shows it | evidently intended | confidence | as-written member | corrected member |
|---|---|---|---|---|---|---|
| server/server.js:179-180 | with `rating` absent, `updateFavorite(req.body.fav, ...)` is called even when `fav` is absent too, because both checks are conditional on presence | `PATCH /api/films/1` with body `{}`: passes validation and calls `updateFavorite(undefined, 1, user)` | the comment at line 179 assumes fav is then present; a body with neither field should be rejected (422), not write an undefined favorite | medium, not executed | `Validation.PatchCallAsWritten` (shown by `Validation.EmptyPatchReachesUpdateFavorite`) | `Validation.ValidatePatch` (agreement proved by `Validation.PatchAgreesWhenAFieldIsSent`) |
