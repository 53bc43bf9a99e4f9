/** The records of src/types.ts and the detail record the movie API returns. */
module Types {
  import opened Wrappers

  /** A search result: one element of the API's `Search` array. */
  datatype Movie = Movie(imdbID: string, title: string, year: string, poster: string)

  /**
   * A runtime in minutes as `Number(token)` yields it for a token of decimal
   * digits (the empty token gives 0, as `Number("")` does). The value is exact:
   * `Number` would round a token above 2^53 to the nearest double, a size no
   * runtime reaches. Any other token
   * (`"N/A"`, a sign, a decimal point) is kept as text: its coercion to a
   * JavaScript number is not modelled.
   */
  datatype Runtime = Minutes(minutes: nat) | NonDecimal(token: string)

  /**
   * An entry of the watched list. `imdbRating` keeps the API's text, because
   * `Number(imdbRating)` is a floating-point coercion; `userRating` is
   * optional, as in the TypeScript type.
   */
  datatype WatchedMovie = WatchedMovie(
    imdbID: string,
    title: string,
    year: string,
    poster: string,
    runtime: Runtime,
    imdbRating: string,
    userRating: Option<nat>)

  /** The fields of the detail response that the details view reads. */
  datatype Details = Details(
    title: string,
    year: string,
    poster: string,
    runtime: string,
    imdbRating: string,
    plot: string,
    released: string,
    actors: string,
    director: string,
    genre: string)

}
