/**
 * The details view of src/components/MovieDetails.tsx: the lookup of an
 * earlier rating, the rating and add-button gates, the construction of a
 * watched entry and the loading flag around the details fetch.
 *
 * `App` renders the view with `key={selectedId}`, so a new selection mounts a
 * new view: `selectedId` is a constant of one view, and the details fetch runs
 * once per view. The `watched` list is a constant of one view for another
 * reason: a delete is reachable only from the watched list, which `App`
 * renders only when no title is selected, and an add closes the view in the
 * same handler.
 */
module MovieDetails {
  import opened Wrappers
  import opened Types
  import opened App

  /** The number of stars the rater offers. */
  const MaxRating: nat := 10

  // ---------------------------------------------------------------------------
  // Earlier rating
  // ---------------------------------------------------------------------------

  /** `watched.findIndex(movie => movie.imdbID === id)`: the first entry with that identifier, or -1. */
  function IndexOfRated(watched: seq<WatchedMovie>, id: string): (r: int)
    ensures -1 <= r < |watched|
    ensures r == -1 <==> !HasId(watched, id)
    ensures 0 <= r ==> watched[r].imdbID == id && forall j | 0 <= j < r :: watched[j].imdbID != id
  {
    if watched == [] then -1
    else if watched[0].imdbID == id then 0
    else
      var k := IndexOfRated(watched[1..], id);
      assert forall i | 0 < i < |watched| :: watched[1..][i - 1] == watched[i];
      if k == -1 then -1 else k + 1
  }

  /** What the rating area shows: the star rater, or the rating stored with the earlier entry. */
  datatype Panel = Rater | Rated(userRating: Option<nat>)

  function RatingPanel(watched: seq<WatchedMovie>, id: string): (p: Panel)
    ensures p.Rater? <==> !HasId(watched, id)
    ensures p.Rated? ==> exists i | 0 <= i < |watched| ::
      watched[i].imdbID == id && p.userRating == watched[i].userRating &&
      forall j | 0 <= j < i :: watched[j].imdbID != id
  {
    var k := IndexOfRated(watched, id);
    if k == -1 then Rater else Rated(watched[k].userRating)
  }

  /** On a list with unique identifiers, the stored rating shown is that of the one entry for the title. */
  lemma RatedShowsTheEntry(watched: seq<WatchedMovie>, id: string, i: nat)
    requires UniqueIds(watched) && i < |watched| && watched[i].imdbID == id
    ensures RatingPanel(watched, id) == Rated(watched[i].userRating)
  {
    var k := IndexOfRated(watched, id);
    assert 0 <= k <= i;
    assert watched[k].imdbID == watched[i].imdbID;
  }

  // ---------------------------------------------------------------------------
  // Runtime: `Number(runtime.split(' ').at(0))`
  // ---------------------------------------------------------------------------

  /** `s.split(' ').at(0)`: the text before the first space, or all of `s`. */
  function FirstToken(s: string): (r: string)
    ensures r <= s && ' ' !in r
    ensures |r| < |s| ==> s[|r|] == ' '
  {
    if s == [] || s[0] == ' ' then [] else [s[0]] + FirstToken(s[1..])
  }

  /** A word followed by the end of the text or by a space is the first token. */
  lemma FirstTokenBeforeSpace(word: string, rest: string)
    requires ' ' !in word && (rest == [] || rest[0] == ' ')
    ensures FirstToken(word + rest) == word
  {
    var s := word + rest;
    var r := FirstToken(s);
    assert |word| < |s| ==> s[|word|] == ' ';
    assert forall i | 0 <= i < |r| :: r[i] == s[i];
    assert forall i | 0 <= i < |word| :: s[i] == word[i];
    assert r == s[..|r|] == word;
  }

  /** A word followed by a space is the first token. */
  lemma FirstTokenOfWord(word: string, rest: string)
    requires ' ' !in word
    ensures FirstToken(word + " " + rest) == word
  {
    assert word + " " + rest == word + (" " + rest);
    FirstTokenBeforeSpace(word, " " + rest);
  }

  predicate IsDigit(c: char)
  {
    '0' <= c <= '9'
  }

  predicate AllDigits(s: string)
  {
    forall i | 0 <= i < |s| :: IsDigit(s[i])
  }

  /** The value of a string of decimal digits; the empty string is 0, as `Number("")` is. */
  function DigitsValue(s: string): nat
    requires AllDigits(s)
  {
    if s == [] then 0
    else DigitsValue(s[..|s| - 1]) * 10 + (s[|s| - 1] as int - '0' as int)
  }

  /** The runtime a Runtime string yields: the number its first token spells. */
  function ParseRuntime(runtime: string): (r: Runtime)
    ensures r.Minutes? <==> AllDigits(FirstToken(runtime))
    ensures r.Minutes? ==> r.minutes == DigitsValue(FirstToken(runtime))
    ensures r.NonDecimal? ==> r.token == FirstToken(runtime)
  {
    var token := FirstToken(runtime);
    if AllDigits(token) then Minutes(DigitsValue(token)) else NonDecimal(token)
  }

  /** The decimal spelling of `n`, without leading zeros: the form the API writes runtimes in. */
  function Decimal(n: nat): (r: string)
    ensures |r| > 0 && AllDigits(r) && DigitsValue(r) == n
    ensures r[0] == '0' ==> n == 0
  {
    var last := ('0' as int + n % 10) as char;
    if n < 10 then [last]
    else
      var front := Decimal(n / 10);
      var r := front + [last];
      assert r[..|r| - 1] == front;
      r
  }

  /** A runtime written as a number, a space and a unit parses to that number of minutes. */
  lemma RuntimeOfMinutes(n: nat, unit: string)
    ensures ParseRuntime(Decimal(n) + " " + unit) == Minutes(n)
  {
    FirstTokenOfWord(Decimal(n), unit);
  }

  /** Leading zeros do not change the value, as in `Number("0148")`. */
  lemma {:induction false} LeadingZeroIgnored(s: string)
    requires AllDigits(s)
    ensures AllDigits("0" + s) && DigitsValue("0" + s) == DigitsValue(s)
  {
    if s != [] {
      var z := "0" + s;
      assert z[..|z| - 1] == "0" + s[..|s| - 1];
      LeadingZeroIgnored(s[..|s| - 1]);
    }
  }

  /**
   * A runtime whose first token is made of decimal digits, followed by the end
   * of the text or by a space, parses to the value of those digits.
   */
  lemma RuntimeOfDigits(digits: string, rest: string)
    requires AllDigits(digits) && (rest == [] || rest[0] == ' ')
    ensures ParseRuntime(digits + rest) == Minutes(DigitsValue(digits))
  {
    FirstTokenBeforeSpace(digits, rest);
  }

  /** "0148 min" and "148" give 148, as `Number` does. */
  lemma RuntimeLeadingZeroAndNoUnit()
    ensures ParseRuntime("0148 min") == Minutes(148)
    ensures ParseRuntime("148") == Minutes(148)
  {
    var d := Decimal(148);
    assert d == "148";
    LeadingZeroIgnored(d);
    RuntimeOfDigits("0" + d, " min");
    assert "0" + d + " min" == "0148 min";
    RuntimeOfDigits(d, "");
    assert d + "" == "148";
  }

  /** "148 min" gives 148. */
  lemma RuntimeExample()
    ensures ParseRuntime("148 min") == Minutes(148)
  {
    assert Decimal(148) == "148";
    RuntimeOfMinutes(148, "min");
    assert Decimal(148) + " " + "min" == "148 min";
  }

  // ---------------------------------------------------------------------------
  // The entry `handleAdd` builds
  // ---------------------------------------------------------------------------

  /** The watched entry for the selected title, the loaded details and the current rating. */
  function NewWatchedMovie(selectedId: string, movie: Details, userRating: nat): (e: WatchedMovie)
    ensures e.imdbID == selectedId && e.userRating == Some(userRating)
    ensures e.title == movie.title && e.year == movie.year && e.poster == movie.poster
    ensures e.imdbRating == movie.imdbRating
    ensures e.runtime == ParseRuntime(movie.runtime)
  {
    WatchedMovie(selectedId, movie.title, movie.year, movie.poster,
                 ParseRuntime(movie.runtime), movie.imdbRating, Some(userRating))
  }

  /**
   * An add made from the view of a title that is not yet watched keeps the
   * identifiers of the watched list unique.
   */
  lemma AddFromDetailsKeepsUnique(watched: seq<WatchedMovie>, selectedId: string, movie: Details, userRating: nat)
    requires UniqueIds(watched) && IndexOfRated(watched, selectedId) == -1
    ensures UniqueIds(watched + [NewWatchedMovie(selectedId, movie, userRating)])
  {
    AppendKeepsUnique(watched, NewWatchedMovie(selectedId, movie, userRating));
  }

  // ---------------------------------------------------------------------------
  // The view's state
  // ---------------------------------------------------------------------------

  /**
   * One mounted details view: the `movie`, `isLoading` and `userRating` state
   * slots. `movie` is `None` until the details arrive (the source's `{}`).
   */
  class DetailsView {
    const selectedId: string
    const watched: seq<WatchedMovie>
    var movie: Option<Details>
    var isLoading: bool
    var userRating: nat

    /**
     * The rating changes only through the star rater, which is offered only
     * for a title not yet watched: a title already watched keeps rating 0.
     */
    ghost predicate Valid()
      reads this
    {
      userRating <= MaxRating &&
      (IndexOfRated(watched, selectedId) != -1 ==> userRating == 0)
    }

    /** The star rater is on screen: the details are not loading and the title is not yet watched. */
    predicate RaterShown()
      reads this
      ensures RaterShown() <==> !isLoading && !HasId(watched, selectedId)
    {
      !isLoading && IndexOfRated(watched, selectedId) == -1
    }

    /**
     * The add button is on screen: the details are not loading and a rating was
     * given. In a valid view that rating came from the rater, so the title is
     * not yet watched.
     */
    predicate AddShown()
      reads this
      ensures AddShown() ==> !isLoading && userRating >= 1
      ensures AddShown() && Valid() ==> !HasId(watched, selectedId)
    {
      !isLoading && userRating > 0
    }

    /** Mounting: no details yet, not loading, rating 0. */
    constructor (selectedId: string, watched: seq<WatchedMovie>)
      ensures this.selectedId == selectedId && this.watched == watched
      ensures movie == None && !isLoading && userRating == 0
      ensures Valid() && !AddShown()
    {
      this.selectedId := selectedId;
      this.watched := watched;
      movie := None;
      isLoading := false;
      userRating := 0;
    }

    /** The details fetch starts (the effect of `selectedId`): the view shows the loader. */
    method StartFetch()
      requires Valid()
      modifies this`isLoading
      ensures Valid() && isLoading && !RaterShown() && !AddShown()
    {
      isLoading := true;
    }

    /** The details arrive: `movie` is replaced wholesale, and loading ends. There is no error path. */
    method FinishFetch(data: Details)
      requires Valid()
      modifies this`movie, this`isLoading
      ensures Valid() && movie == Some(data) && !isLoading
    {
      movie := Some(data);
      isLoading := false;
    }

    /** The star rater's `onSetRating`: a click on star `rating`. */
    method SetRating(rating: nat)
      requires Valid() && RaterShown() && 1 <= rating <= MaxRating
      modifies this`userRating
      ensures Valid() && userRating == rating && AddShown()
    {
      userRating := rating;
    }

    /**
     * `handleAdd`, behind the add button: build the entry, hand it to the
     * app's `handleAddWatched`, then close the view through `handleCloseMovie`.
     * Before the details have arrived, reading `runtime.split` throws, and
     * neither callback is reached.
     */
    method HandleAdd(app: AppState) returns (added: Option<WatchedMovie>)
      requires Valid() && AddShown()
      requires app.watched == watched
      modifies app
      ensures movie.None? ==> added == None && app.watched == old(app.watched) && app.selectedId == old(app.selectedId)
      ensures movie.Some? ==>
        added == Some(NewWatchedMovie(selectedId, movie.value, userRating)) &&
        app.watched == old(app.watched) + [added.value] && app.selectedId == None
      ensures added.Some? ==> !HasId(old(app.watched), added.value.imdbID) && added.value.userRating == Some(userRating)
      ensures UniqueIds(old(app.watched)) ==> UniqueIds(app.watched)
    {
      if movie.None? {
        return None;
      }
      var entry := NewWatchedMovie(selectedId, movie.value, userRating);
      if UniqueIds(app.watched) {
        AddFromDetailsKeepsUnique(app.watched, selectedId, movie.value, userRating);
      }
      app.AddWatched(entry);
      app.CloseMovie();
      added := Some(entry);
    }
  }
}
