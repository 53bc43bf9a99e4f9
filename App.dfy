/**
 * The state the top-level view (src/App.tsx) owns: the optional selected
 * title, the watched list and the open/closed flag of each `Box`. Each handler
 * replaces one state slot by a new value; the new values are the pure
 * functions below (the toggle, the append, the filter).
 */
module App {
  import opened Wrappers
  import opened Types

  // ---------------------------------------------------------------------------
  // Selection
  // ---------------------------------------------------------------------------

  /** The selection after the user picks `id`: picking the selected title again clears it. */
  function Toggle(selected: Option<string>, id: string): (r: Option<string>)
    ensures r == Some(id) <==> selected != Some(id)
    ensures r == None <==> selected == Some(id)
  {
    if selected == Some(id) then None else Some(id)
  }

  /** Picking the same title twice from no selection (or from that title) returns to where it started. */
  lemma ToggleTwice(selected: Option<string>, id: string)
    requires selected == None || selected == Some(id)
    ensures Toggle(Toggle(selected, id), id) == selected
  {
  }

  // ---------------------------------------------------------------------------
  // Watched list
  // ---------------------------------------------------------------------------

  /** Some entry of `ws` has identifier `id`. */
  predicate HasId(ws: seq<WatchedMovie>, id: string)
  {
    exists i | 0 <= i < |ws| :: ws[i].imdbID == id
  }

  /** No two entries share an identifier. */
  predicate UniqueIds(ws: seq<WatchedMovie>)
  {
    forall i, j | 0 <= i < j < |ws| :: ws[i].imdbID != ws[j].imdbID
  }

  /** The number of entries with identifier `id`. */
  function CountId(ws: seq<WatchedMovie>, id: string): nat
  {
    if ws == [] then 0
    else (if ws[0].imdbID == id then 1 else 0) + CountId(ws[1..], id)
  }

  /** `a` is `b` with some entries dropped, the rest in their original order. */
  predicate IsSubsequence(a: seq<WatchedMovie>, b: seq<WatchedMovie>)
  {
    if a == [] then true
    else if b == [] then false
    else if a[0] == b[0] then IsSubsequence(a[1..], b[1..])
    else IsSubsequence(a, b[1..])
  }

  /** The list after deleting by identifier: the entries whose `imdbID` differs from `id`. */
  function Without(ws: seq<WatchedMovie>, id: string): (r: seq<WatchedMovie>)
    ensures forall m :: m in r <==> m in ws && m.imdbID != id
    ensures |r| <= |ws|
  {
    if ws == [] then []
    else if ws[0].imdbID == id then Without(ws[1..], id)
    else [ws[0]] + Without(ws[1..], id)
  }

  /** Deleting drops exactly the entries with that identifier. */
  lemma {:induction false} WithoutLength(ws: seq<WatchedMovie>, id: string)
    ensures |Without(ws, id)| == |ws| - CountId(ws, id)
  {
    if ws != [] {
      WithoutLength(ws[1..], id);
    }
  }

  /** Deleting keeps the remaining entries in their original relative order. */
  lemma {:induction false} WithoutIsSubsequence(ws: seq<WatchedMovie>, id: string)
    ensures IsSubsequence(Without(ws, id), ws)
  {
    if ws != [] {
      WithoutIsSubsequence(ws[1..], id);
      if ws[0].imdbID != id {
        assert Without(ws, id) == [ws[0]] + Without(ws[1..], id);
      }
    }
  }

  /** With no entry carrying `id`, deleting it changes nothing. */
  lemma {:induction false} WithoutAbsent(ws: seq<WatchedMovie>, id: string)
    requires !HasId(ws, id)
    ensures Without(ws, id) == ws
  {
    if ws != [] {
      assert !HasId(ws[1..], id) by {
        forall i | 0 <= i < |ws[1..]| ensures ws[1..][i].imdbID != id {
          assert ws[1..][i] == ws[i + 1];
        }
      }
      WithoutAbsent(ws[1..], id);
      assert ws == [ws[0]] + ws[1..];
    }
  }

  /** Deleting twice is deleting once. */
  lemma WithoutIdempotent(ws: seq<WatchedMovie>, id: string)
    ensures Without(Without(ws, id), id) == Without(ws, id)
  {
    var r := Without(ws, id);
    assert !HasId(r, id) by {
      forall i | 0 <= i < |r| ensures r[i].imdbID != id {
        assert r[i] in r;
      }
    }
    WithoutAbsent(r, id);
  }

  /** Deleting distributes over concatenation. */
  lemma {:induction false} WithoutConcat(a: seq<WatchedMovie>, b: seq<WatchedMovie>, id: string)
    ensures Without(a + b, id) == Without(a, id) + Without(b, id)
  {
    if a != [] {
      assert (a + b)[1..] == a[1..] + b;
      WithoutConcat(a[1..], b, id);
    } else {
      assert a + b == b;
    }
  }

  /** Adding a title that is not yet watched and then deleting it restores the list. */
  lemma AddThenDelete(ws: seq<WatchedMovie>, m: WatchedMovie)
    requires !HasId(ws, m.imdbID)
    ensures Without(ws + [m], m.imdbID) == ws
  {
    WithoutConcat(ws, [m], m.imdbID);
    WithoutAbsent(ws, m.imdbID);
    assert Without([m], m.imdbID) == Without([], m.imdbID);
  }

  /** Appending a title that is not yet watched keeps identifiers unique. */
  lemma AppendKeepsUnique(ws: seq<WatchedMovie>, m: WatchedMovie)
    requires UniqueIds(ws) && !HasId(ws, m.imdbID)
    ensures UniqueIds(ws + [m])
  {
    var r := ws + [m];
    forall i, j | 0 <= i < j < |r| ensures r[i].imdbID != r[j].imdbID {
      if j == |ws| {
        assert r[i] == ws[i];
      }
    }
  }

  /** A unique list stays unique after a delete. */
  lemma {:induction false} WithoutKeepsUnique(ws: seq<WatchedMovie>, id: string)
    requires UniqueIds(ws)
    ensures UniqueIds(Without(ws, id))
  {
    if ws != [] {
      var tail := ws[1..];
      assert UniqueIds(tail) by {
        forall i, j | 0 <= i < j < |tail| ensures tail[i].imdbID != tail[j].imdbID {
          assert tail[i] == ws[i + 1] && tail[j] == ws[j + 1];
        }
      }
      WithoutKeepsUnique(tail, id);
      if ws[0].imdbID != id {
        var rest := Without(tail, id);
        var r := [ws[0]] + rest;
        forall i, j | 0 <= i < j < |r| ensures r[i].imdbID != r[j].imdbID {
          if i == 0 {
            assert r[j] in rest;
            assert r[j] in tail;
            var k :| 0 <= k < |tail| && tail[k] == r[j];
            assert tail[k] == ws[k + 1];
          } else {
            assert r[i] == rest[i - 1] && r[j] == rest[j - 1];
          }
        }
      }
    }
  }

  /** On a list with unique identifiers, deleting a watched title removes exactly one entry. */
  lemma {:induction false} UniqueCountIsOne(ws: seq<WatchedMovie>, id: string)
    requires UniqueIds(ws) && HasId(ws, id)
    ensures CountId(ws, id) == 1
  {
    var tail := ws[1..];
    assert UniqueIds(tail) by {
      forall i, j | 0 <= i < j < |tail| ensures tail[i].imdbID != tail[j].imdbID {
        assert tail[i] == ws[i + 1] && tail[j] == ws[j + 1];
      }
    }
    if ws[0].imdbID == id {
      assert !HasId(tail, id) by {
        forall i | 0 <= i < |tail| ensures tail[i].imdbID != id {
          assert tail[i] == ws[i + 1];
        }
      }
      CountAbsent(tail, id);
    } else {
      var k :| 0 <= k < |ws| && ws[k].imdbID == id;
      assert tail[k - 1] == ws[k];
      UniqueCountIsOne(tail, id);
    }
  }

  /** An identifier that does not occur is counted zero times. */
  lemma {:induction false} CountAbsent(ws: seq<WatchedMovie>, id: string)
    requires !HasId(ws, id)
    ensures CountId(ws, id) == 0
  {
    if ws != [] {
      assert !HasId(ws[1..], id) by {
        forall i | 0 <= i < |ws[1..]| ensures ws[1..][i].imdbID != id {
          assert ws[1..][i] == ws[i + 1];
        }
      }
      CountAbsent(ws[1..], id);
    }
  }

  /** Deleting a title from a list with unique identifiers shortens it by exactly one. */
  lemma DeleteUniqueRemovesOne(ws: seq<WatchedMovie>, id: string)
    requires UniqueIds(ws) && HasId(ws, id)
    ensures |Without(ws, id)| == |ws| - 1
    ensures !HasId(Without(ws, id), id)
  {
    UniqueCountIsOne(ws, id);
    WithoutLength(ws, id);
    var r := Without(ws, id);
    forall i | 0 <= i < |r| ensures r[i].imdbID != id {
      assert r[i] in r;
    }
  }

  // ---------------------------------------------------------------------------
  // The top-level state and its handlers
  // ---------------------------------------------------------------------------

  /** The `selectedId` and `watched` state slots of `App` and the handlers that replace them. */
  class AppState {
    var selectedId: Option<string>
    var watched: seq<WatchedMovie>

    /** The watched list starts as whatever local storage held (an empty list when nothing was stored). */
    constructor (stored: seq<WatchedMovie>)
      ensures selectedId == None && watched == stored
    {
      selectedId := None;
      watched := stored;
    }

    /** `handleSelectMovie`: select `id`, or clear the selection when `id` is already selected. */
    method SelectMovie(id: string)
      modifies this`selectedId
      ensures selectedId == Toggle(old(selectedId), id)
      ensures old(selectedId) != Some(id) ==> selectedId == Some(id)
      ensures old(selectedId) == Some(id) ==> selectedId == None
    {
      selectedId := Toggle(selectedId, id);
    }

    /** `handleCloseMovie`: no selection, whatever was selected. */
    method CloseMovie()
      modifies this`selectedId
      ensures selectedId == None
    {
      selectedId := None;
    }

    /** `handleAddWatched`: append the movie at the end, without any check. */
    method AddWatched(movie: WatchedMovie)
      modifies this`watched
      ensures watched == old(watched) + [movie]
      ensures |watched| == |old(watched)| + 1 && watched[|watched| - 1] == movie
      ensures forall i | 0 <= i < |old(watched)| :: watched[i] == old(watched)[i]
    {
      watched := watched + [movie];
    }

    /** `handleDeleteWatched`: keep the entries whose identifier differs from the movie's. */
    method DeleteWatched(movie: WatchedMovie)
      modifies this`watched
      ensures watched == Without(old(watched), movie.imdbID)
      ensures IsSubsequence(watched, old(watched))
      ensures |watched| == |old(watched)| - CountId(old(watched), movie.imdbID)
      ensures forall m :: m in watched <==> m in old(watched) && m.imdbID != movie.imdbID
    {
      WithoutIsSubsequence(watched, movie.imdbID);
      WithoutLength(watched, movie.imdbID);
      watched := Without(watched, movie.imdbID);
    }
  }

  // ---------------------------------------------------------------------------
  // Box
  // ---------------------------------------------------------------------------

  /** Whether a box is open after `clicks` clicks on its toggle button. */
  function OpenAfter(clicks: nat): bool
  {
    if clicks == 0 then true else !OpenAfter(clicks - 1)
  }

  /** A box is open exactly after an even number of clicks. */
  lemma {:induction false} OpenAfterParity(clicks: nat)
    ensures OpenAfter(clicks) <==> clicks % 2 == 0
  {
    if clicks > 0 {
      OpenAfterParity(clicks - 1);
    }
  }

  /** A collapsible panel (`Box`): its `isOpen` slot starts true and each click flips it. */
  class Box {
    var isOpen: bool
    ghost var clicks: nat

    ghost predicate Valid()
      reads this
    {
      isOpen == OpenAfter(clicks)
    }

    constructor ()
      ensures Valid() && isOpen && clicks == 0
    {
      isOpen := true;
      clicks := 0;
    }

    method Click()
      requires Valid()
      modifies this
      ensures Valid() && clicks == old(clicks) + 1
      ensures isOpen == !old(isOpen)
      ensures isOpen <==> clicks % 2 == 0
    {
      isOpen := !isOpen;
      clicks := clicks + 1;
      OpenAfterParity(clicks);
    }
  }
}
