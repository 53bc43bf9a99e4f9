# usePopcorn: a verified model of the watched list, the search hook and the details view

usePopcorn is a small browser app. It searches a public movie database, shows the details of one selected title, and keeps a "watched" list of titles that the user has rated. This project models the app's state logic in Dafny and proves properties of that model. Rendering is not modelled.

- `Types` holds the records of `src/types.ts`. `Movie` is a search result. `WatchedMovie` is a watched entry: identifier, title, year, poster, runtime, IMDb rating and an optional user rating. `Details` is the detail record the API returns.
- `App` models the state of `src/App.tsx`:
  - `AppState` holds the `selectedId` and `watched` slots. Its handlers are select (a toggle), close, add (an unconditional append) and delete (a filter by `imdbID`).
  - `Box` is the collapsible panel. Its `isOpen` starts true and flips on each click.
  - The pure functions and lemmas on `seq` say what the handlers compute: order, length, membership, idempotence, the add/delete round trip and uniqueness of identifiers.
- `UseMovies` models the search hook of `src/useMovies.tsx` as a state machine:
  - The state is `movies`, `isLoading` and `error`, plus the requests in flight.
  - Each request is a token. How it ends is an input event: found, non-ok status, the `Response === 'False'` sentinel, or another thrown error. An aborted request always ends in an `AbortError`, whatever the network did.
  - A change of query first runs the previous run's cleanup, which aborts the previous request. Then comes the length gate. A long enough query invokes the callback and then starts one request.
  - The pure functions `OnQuery` and `OnSettle` are the specification. The class `MovieSearch` updates its fields step by step and is proved equal to them.
- `MovieDetails` models `src/components/MovieDetails.tsx`:
  - the `findIndex` lookup of an earlier rating;
  - the rating panel (the star rater or the stored rating);
  - the add-button gate;
  - the entry that `handleAdd` builds, including the runtime parsed from the first space-separated token;
  - the loading flag around the details fetch.

  `DetailsView.HandleAdd` calls the `AppState` handlers directly, as the component calls `onAddWatched` and then `onCloseMovie`. It proves that the watched list keeps unique identifiers. The reason is that the rating can only become positive through the star rater, and the rater is offered only for a title that is not yet watched.

Notes on the code's behaviour, all modelled as written:

- The search gate compares the untrimmed `query.length` with 3 (src/useMovies.tsx:44): leading and trailing spaces count.
- Deleting removes every entry with the movie's identifier (src/App.tsx:186-190). On a list with unique identifiers this is exactly one entry (`DeleteUniqueRemovesOne`).
- The cleanup that aborts the previous request runs on every query change, also when the new query is too short (src/useMovies.tsx:53-55).
- Adding does not check for duplicates (src/App.tsx:182-184). Uniqueness follows from the gates of the details view (`DetailsView.HandleAdd`, `AddFromDetailsKeepsUnique`).
- While a details view is open, the watched list it was given does not change. Delete is reachable only from `WatchedMovieList`, which is rendered only when no title is selected (src/App.tsx:209-224). Add closes the view in the same handler (src/components/MovieDetails.tsx:39-40). So `DetailsView.HandleAdd` requires the app's list to equal the view's.
- `MovieDetails` has no Escape listener, no document-title update and no rating-decision counter, so none is modelled.
- The `finally` of an aborted request clears `isLoading` even while a newer request is still in flight (src/useMovies.tsx:39-41). The model keeps this as written. `AbortedRequestClearsLoadingOfNewer` exhibits it.

## Model

| member | source | states |
|---|---|---|
| `App.Toggle` | src/App.tsx:174-176 | picking a title that is not selected selects it; picking the selected title clears the selection (both directions) |
| `App.ToggleTwice` | src/App.tsx:174-176 | picking the same title twice, from no selection or from that title, restores the selection |
| `App.Without` | src/App.tsx:186-190 | after a delete, an entry is in the list exactly when it was there before and its `imdbID` differs from the deleted one's; the list never grows |
| `App.WithoutLength` | src/App.tsx:186-190 | a delete shortens the list by exactly the number of entries carrying that identifier |
| `App.WithoutIsSubsequence` | src/App.tsx:186-190 | the entries a delete keeps stay in their original relative order |
| `App.WithoutAbsent` | src/App.tsx:186-190 | deleting an identifier that no entry has leaves the list unchanged |
| `App.WithoutIdempotent` | src/App.tsx:186-190 | deleting the same identifier twice is the same as deleting it once |
| `App.WithoutConcat` | src/App.tsx:186-190 | filtering a concatenation is the concatenation of the filtered parts |
| `App.AddThenDelete` | src/App.tsx:182-190 | adding a title whose identifier is absent and then deleting it restores the original list |
| `App.AppendKeepsUnique` | src/App.tsx:182-184 | appending a title whose identifier is absent keeps identifiers unique |
| `App.WithoutKeepsUnique` | src/App.tsx:186-190 | a delete keeps a list with unique identifiers unique |
| `App.UniqueCountIsOne` | src/App.tsx:186-190 | on a list with unique identifiers, a watched title occurs exactly once |
| `App.CountAbsent` | src/App.tsx:186-190 | an identifier no entry has occurs zero times |
| `App.DeleteUniqueRemovesOne` | src/App.tsx:186-190 | on a list with unique identifiers, deleting a watched title removes exactly one entry and no entry with that identifier remains |
| `App.AppState.constructor` | src/App.tsx:166-172 | the app starts with no selection and with the stored watched list |
| `App.AppState.SelectMovie` | src/App.tsx:174-176 | the selection becomes the toggle of the old selection; the watched list is untouched |
| `App.AppState.CloseMovie` | src/App.tsx:178-180 | whatever the prior state, no title is selected afterwards |
| `App.AppState.AddWatched` | src/App.tsx:182-184 | the new list is the old list followed by the movie; its length grows by one and earlier entries are unchanged |
| `App.AppState.DeleteWatched` | src/App.tsx:186-190 | the new list holds exactly the old entries with a different identifier, in their original order, and is shorter by their count |
| `App.OpenAfterParity` | src/App.tsx:29-33 | a box that starts open is open after a number of clicks exactly when that number is even |
| `App.Box.constructor` | src/App.tsx:29 | a box starts open |
| `App.Box.Click` | src/App.tsx:33 | each click flips `isOpen`, and the box is open exactly after an even number of clicks |
| `UseMovies.Cleanup` | src/useMovies.tsx:53-55 | the cleanup aborts the request its run started and touches nothing else |
| `UseMovies.OnQuery` | src/useMovies.tsx:10-56 | an unchanged query does nothing. A change aborts the previous request. A query shorter than 3 clears `movies` and `error` and invokes no callback and starts no request. A longer one invokes the callback, then starts exactly one request, with `isLoading` true and `error` empty |
| `UseMovies.OnSettle` | src/useMovies.tsx:14-42 | every ending clears `isLoading`. An aborted request changes neither `movies` nor `error`. Otherwise: found sets `movies` to the `Search` array and clears `error`; a non-ok status sets 'something went wrong with fetching movies'; the `'False'` sentinel sets 'Movie not found'; any other error sets its message. In the last three cases `movies` is unchanged |
| `UseMovies.InitialInv` | src/useMovies.tsx:6-8 | the mounted hook has no request in flight that could commit |
| `UseMovies.OnQueryKeepsInv` | src/useMovies.tsx:53-55 | after a query change, the only request in flight that is not aborted is the new one, sent for the current query |
| `UseMovies.OnSettleKeepsInv` | src/useMovies.tsx:14-42 | the end of a request keeps that ordering invariant |
| `UseMovies.RunKeepsInv` | src/useMovies.tsx:10-56 | any sequence of query changes and request endings keeps the ordering invariant |
| `UseMovies.OnlyCurrentRequestCommits` | src/useMovies.tsx:30-37 | a request that changes `movies` or `error` is the current request of the current query |
| `UseMovies.LastQueryWins` | src/useMovies.tsx:10-56 | along any event sequence from mount, a response that commits anything belongs to the last query issued, and that query passed the length gate |
| `UseMovies.RunKeepsRequestsLong` | src/useMovies.tsx:44-51 | every request in flight was sent for a query of length at least 3, along any event sequence |
| `UseMovies.FetchedQueriesAreLong` | src/useMovies.tsx:44-51 | no request is ever sent for a query shorter than 3 |
| `UseMovies.AbortedRequestClearsLoadingOfNewer` | src/useMovies.tsx:39-41 | after "abc", "abcd" and the end of the aborted "abc" request, `isLoading` is false while the "abcd" request is still in flight |
| `UseMovies.MovieSearch.constructor` | src/useMovies.tsx:6-8 | the hook starts with no movies, not loading, no error and no request |
| `UseMovies.MovieSearch.SetQuery` | src/useMovies.tsx:10-56 | the step-by-step effect run yields exactly the state `OnQuery` specifies |
| `UseMovies.MovieSearch.Settle` | src/useMovies.tsx:14-42 | the step-by-step try/catch/finally yields exactly the state `OnSettle` specifies |
| `MovieDetails.IndexOfRated` | src/components/MovieDetails.tsx:24-26 | the result is -1 exactly when no entry has the selected identifier; otherwise it is the index of the first such entry |
| `MovieDetails.RatingPanel` | src/components/MovieDetails.tsx:94-102 | the star rater is offered exactly when the title is not watched; otherwise the panel shows the stored `userRating` of the first entry for the title |
| `MovieDetails.RatedShowsTheEntry` | src/components/MovieDetails.tsx:94-102 | on a list with unique identifiers, the stored rating shown is that of the title's entry |
| `MovieDetails.FirstToken` | src/components/MovieDetails.tsx:35 | the token is a prefix of the runtime text, holds no space, and is followed by a space unless it is the whole text |
| `MovieDetails.FirstTokenOfWord` | src/components/MovieDetails.tsx:35 | a word followed by a space is the first token |
| `MovieDetails.FirstTokenBeforeSpace` | src/components/MovieDetails.tsx:35 | a space-free word followed by the end of the text or by a space is the first token |
| `MovieDetails.ParseRuntime` | src/components/MovieDetails.tsx:35 | the runtime is a number of minutes exactly when the first token is made of decimal digits, and then it is the decimal value of that token; otherwise the token is kept |
| `MovieDetails.LeadingZeroIgnored` | src/components/MovieDetails.tsx:35 | a leading zero does not change the value of a digit token, as with `Number("0148")` |
| `MovieDetails.RuntimeOfDigits` | src/components/MovieDetails.tsx:35 | any digit token followed by the end of the text or by a space parses to the value of those digits |
| `MovieDetails.RuntimeLeadingZeroAndNoUnit` | src/components/MovieDetails.tsx:35 | "0148 min" and "148" both give 148 |
| `MovieDetails.Decimal` | src/components/MovieDetails.tsx:35 | the decimal spelling of a number is a non-empty digit string whose value is that number, with no leading zero unless the number is 0 |
| `MovieDetails.RuntimeOfMinutes` | src/components/MovieDetails.tsx:35 | a runtime text "n unit" parses to n minutes, for every n |
| `MovieDetails.RuntimeExample` | src/components/MovieDetails.tsx:35 | "148 min" gives 148 |
| `MovieDetails.NewWatchedMovie` | src/components/MovieDetails.tsx:28-37 | the entry has the selected identifier, the current user rating, the loaded title, year, poster and IMDb rating, and the parsed runtime |
| `MovieDetails.AddFromDetailsKeepsUnique` | src/components/MovieDetails.tsx:94-108 | an add from the view of a title that is not yet watched keeps identifiers unique |
| `MovieDetails.DetailsView.RaterShown` | src/components/MovieDetails.tsx:71-99 | the star rater is on screen exactly when the details are not loading and no watched entry has the selected identifier |
| `MovieDetails.DetailsView.AddShown` | src/components/MovieDetails.tsx:71-108 | the add button is on screen only when the details are not loading and a rating of at least 1 was given; in a view whose rating came from the rater, the title is then not yet watched |
| `MovieDetails.DetailsView.constructor` | src/components/MovieDetails.tsx:20-22 | a view mounts with no details, not loading and rating 0, so the add button is not offered |
| `MovieDetails.DetailsView.StartFetch` | src/components/MovieDetails.tsx:56-58 | the details fetch sets `isLoading`, which hides the rater and the add button |
| `MovieDetails.DetailsView.FinishFetch` | src/components/MovieDetails.tsx:62-64 | the response replaces `movie` wholesale and loading ends |
| `MovieDetails.DetailsView.SetRating` | src/components/MovieDetails.tsx:94-99 | the rater, offered only for a title not yet watched, sets `userRating`, which then offers the add button |
| `MovieDetails.DetailsView.HandleAdd` | src/components/MovieDetails.tsx:28-41 | with the details loaded, the app's list grows by the built entry and the selection is cleared. Before they load, nothing changes. An added title was not yet watched, so unique identifiers stay unique |

## Left out

- Rendering (`Main`, `MovieList`, `MovieItem`, `WatchedSummary`, `WatchedMovieList`, `WatchedMovieItem`, `NumResults`, `Navbar`, the JSX of `MovieDetails`) is left out. It only displays fields. What the view shows is modelled only as the gates `RaterShown`, `AddShown` and `RatingPanel`.
- `average` and `.toFixed(2)` are left out: they are floating-point arithmetic.
- `Number(imdbRating)` is left out. The entry keeps the API's IMDb rating text, because the coercion yields a floating-point number.
- `MovieDetails.ParseRuntime` handles only a first token made of decimal digits. That token becomes a number, and the empty token becomes 0, as in JavaScript. `Number()`'s other inputs are kept as `NonDecimal(token)` without a value: signs, decimal points, exponents, hexadecimal, surrounding tabs, and "N/A", which gives NaN. The values are exact integers. `Number` rounds a digit token above 2^53 to the nearest double, but no runtime reaches that size.
- `UseMovies.OnQuery`: the callback is taken as present, because `App` passes `handleCloseMovie` (src/App.tsx:168). With the optional callback absent, `callback?.()` calls nothing (src/useMovies.tsx:50), and the model would record no `Callback` effect.
- `fetch`, JSON decoding, the request URLs, the API key and `AbortController` internals are network I/O. A request is a token, and its end is an input event.
- `UseMovies.Response.Failed` stands for any other `Error` the request throws. The `console.log` of its message is output and is not modelled. A thrown value that is not an `Error` (the `instanceof` test fails) is not modelled: `fetch` and `json` throw only `Error`s.
- A `Settle` event for a token that is not in flight is ignored by `UseMovies.Step`. This cannot happen, because each request ends once.
- The hook's cleanup on unmount is not modelled: `App` never unmounts.
- The details fetch has no error path in the source. A failed fetch would leave `isLoading` true. It is modelled only as an event that never arrives.
- A details response that arrives after its view has closed is not modelled, because the view no longer exists.
- The query input, the Enter and Escape key listeners (src/useKey.tsx, src/components/Search.tsx) and src/main.tsx are left out. They are DOM event registration and focus handling.
- `StarRating`, `useLocalStorageState`, `Loader`, `ErrorMessage` and `Logo` are not part of this model.
  - The stored watched list is a parameter of `App.AppState.constructor`.
  - Persistence to local storage is not modelled.
- `MovieDetails.DetailsView.SetRating` assumes that the star rater reports a rating from 1 to 10. `StarRating` is not part of this model, and 10 is the `maxRating` the view passes.
- Query length is the number of Dafny characters. JavaScript's `length` counts UTF-16 code units, which differs only for characters outside the Basic Multilingual Plane.
- `App` shows the details view only when `selectedId` is truthy, so an empty identifier would show no view. API identifiers are never empty, and this is not modelled.
