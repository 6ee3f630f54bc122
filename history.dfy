/** Game history (pong/game/game.py): validation of a posted game and the page arithmetic
    of the history listing. The ORM query is replaced by the user's games already in the
    order the view sorts them (newest first). */
module GameHistory {
  import opened Common

  const REQUIRED_FIELDS: seq<string> := ["player1Nick", "player2Nick", "player1Score", "player2Score", "mode"]

  function RequiredMessage(field: string): string
  {
    field + " is required."
  }

  function ModeMessage(mode: string): string
  {
    "Game mode must be '" + mode + "'"
  }

  /** `data.get("mode") == mode` */
  predicate ModeMatches(data: map<string, Json>, mode: string)
  {
    "mode" in data && data["mode"] == JStr(mode)
  }

  /** validate_game: one "is required" message per missing field, in the order of
      REQUIRED_FIELDS, then the mode message whenever the mode differs, replacing the
      "required" message of a missing mode. */
  method ValidateGame(data: map<string, Json>, mode: string) returns (errors: map<string, string>)
    ensures forall f :: f in errors <==> (f in REQUIRED_FIELDS && f !in data) || (f == "mode" && !ModeMatches(data, mode))
    ensures forall f :: f in errors && f != "mode" ==> errors[f] == RequiredMessage(f)
    ensures "mode" in errors ==> errors["mode"] == ModeMessage(mode)
    ensures |errors| == 0 <==> (forall f :: f in REQUIRED_FIELDS ==> f in data) && ModeMatches(data, mode)
  {
    errors := map[];
    var i := 0;
    while i < |REQUIRED_FIELDS|
      invariant 0 <= i <= |REQUIRED_FIELDS|
      invariant forall f :: f in errors <==> f in REQUIRED_FIELDS[..i] && f !in data
      invariant forall f :: f in errors ==> errors[f] == RequiredMessage(f)
    {
      var field := REQUIRED_FIELDS[i];
      if field !in data {
        errors := errors[field := RequiredMessage(field)];
      }
      i := i + 1;
    }
    assert REQUIRED_FIELDS[..i] == REQUIRED_FIELDS;
    if !ModeMatches(data, mode) {
      errors := errors["mode" := ModeMessage(mode)];
    }
  }

  /** A page of the history listing. */
  datatype Page<G> = Page(
    games: seq<G>,
    current: int,
    hasNext: bool,
    hasPrevious: bool,
    totalPages: int,
    totalItems: nat)

  function Min(a: int, b: int): int
  {
    if a <= b then a else b
  }

  /** `queryset[start:end]`: Django refuses negative bounds and clamps the rest. */
  function Window<G>(games: seq<G>, start: int, end: int): (w: Attempt<seq<G>>)
    ensures w.Done? <==> start >= 0 && end >= 0
    ensures w.Done? ==> |w.value| <= if end > start then end - start else 0
    ensures w.Done? ==> forall k :: 0 <= k < |w.value| ==> start + k < |games| && w.value[k] == games[start + k]
    ensures w.Done? && start < end && start <= |games| ==> |w.value| == Min(end, |games|) - start
  {
    if start < 0 || end < 0 then Raised(ValueError)
    else if end <= start then Done([])
    else Done(games[Min(start, |games|)..Min(end, |games|)])
  }

  /** The arithmetic of GameView.get for the user's `games` (newest first). */
  function GamePage<G>(games: seq<G>, pageNumber: int, pageSize: int): (r: Attempt<Page<G>>)
    ensures var start := (pageNumber - 1) * pageSize;
            && (start < 0 || start + pageSize < 0 ==> r == Raised(ValueError))
            && (start >= 0 && start + pageSize >= 0 && pageSize == 0 ==> r == Raised(ZeroDivisionError))
            && (r.Done? ==>
                  && pageSize != 0
                  && r.value.games == Window(games, start, start + pageSize).value
                  && r.value.current == pageNumber && r.value.totalItems == |games|
                  && r.value.totalPages == FloorDiv(|games| + pageSize - 1, pageSize)
                  && (r.value.hasNext <==> pageNumber < r.value.totalPages)
                  && (r.value.hasPrevious <==> pageNumber > 1))
    ensures r.Done? <==> pageSize != 0 && (pageNumber - 1) * pageSize >= 0 && (pageNumber - 1) * pageSize + pageSize >= 0
  {
    var start := (pageNumber - 1) * pageSize;
    var end := start + pageSize;
    match Window(games, start, end)
    case Raised(e) => Raised(e)
    case Done(window) =>
      if pageSize == 0 then Raised(ZeroDivisionError)
      else
        var totalPages := FloorDiv(|games| + pageSize - 1, pageSize);
        Done(Page(window, pageNumber, pageNumber < totalPages, pageNumber > 1, totalPages, |games|))
  }

  /** For a positive size, a page is answered exactly when its number is at least 1. */
  lemma {:induction false} ValidPages<G>(games: seq<G>, pageNumber: int, pageSize: int)
    requires pageSize > 0
    ensures GamePage(games, pageNumber, pageSize).Done? <==> pageNumber >= 1
  {
    if pageNumber < 1 {
      assert (pageNumber - 1) * pageSize < 0 by {
        assert pageNumber - 1 < 0;
      }
    } else {
      assert (pageNumber - 1) * pageSize >= 0;
    }
  }

  /** total_pages is the ceiling of the number of games over the page size. */
  lemma {:induction false} TotalPagesIsCeiling(total: nat, pageSize: int)
    requires pageSize > 0
    ensures var tp := FloorDiv(total + pageSize - 1, pageSize);
            && tp >= 0
            && (total == 0 ==> tp == 0)
            && (total > 0 ==> (tp - 1) * pageSize < total <= tp * pageSize)
  {
    var tp := FloorDiv(total + pageSize - 1, pageSize);
    assert tp * pageSize <= total + pageSize - 1 < tp * pageSize + pageSize;
    if total > 0 {
      assert (tp - 1) * pageSize == tp * pageSize - pageSize;
    }
  }

  /** Page p (from 1, positive size) holds exactly the games with index in
      [(p - 1) * size, p * size), in order, so no page is longer than the size and every game
      is on exactly one page. */
  lemma {:induction false} PageHoldsItsSlice<G>(games: seq<G>, pageNumber: int, pageSize: int)
    requires pageSize > 0 && pageNumber >= 1
    ensures var r := GamePage(games, pageNumber, pageSize);
            && r.Done? && |r.value.games| <= pageSize
            && r.value.games == games[Min((pageNumber - 1) * pageSize, |games|)..Min(pageNumber * pageSize, |games|)]
  {
    ValidPages(games, pageNumber, pageSize);
    assert (pageNumber - 1) * pageSize + pageSize == pageNumber * pageSize;
  }

  /** Index i lies in the range of page i / size + 1 and of no other page. */
  lemma {:induction false} PageOfIndex(i: nat, pageSize: int, pageNumber: int)
    requires pageSize > 0 && pageNumber >= 1
    ensures (pageNumber - 1) * pageSize <= i < pageNumber * pageSize <==> pageNumber == i / pageSize + 1
  {
    var q := i / pageSize;
    var lo := q * pageSize;
    assert lo <= i < lo + pageSize;
    assert (q + 1) * pageSize == lo + pageSize;
    if pageNumber <= q {
      MulMonotonic(pageNumber, q, pageSize);
    } else if pageNumber >= q + 2 {
      MulMonotonic(q + 1, pageNumber - 1, pageSize);
    } else {
      assert pageNumber - 1 == q;
    }
  }

  /** Page q + 1 serves, at offset `off`, the game with index q * size + off. */
  lemma {:induction false} GameAtOffset<G>(games: seq<G>, q: nat, off: nat, pageSize: int)
    requires pageSize > 0 && off < pageSize && q * pageSize + off < |games|
    ensures var r := GamePage(games, q + 1, pageSize);
            && r.Done? && off < |r.value.games| && r.value.games[off] == games[q * pageSize + off]
  {
    var lo := q * pageSize;
    PageHoldsItsSlice(games, q + 1, pageSize);
    assert (q + 1 - 1) * pageSize == lo && (q + 1) * pageSize == lo + pageSize;
    assert Min(lo, |games|) == lo && Min(lo + pageSize, |games|) > lo + off;
  }

  /** The page of a game: game i is served by page i / size + 1, at offset i % size, and
      index i lies in the range of no other page. */
  lemma {:induction false} EveryGameOnOnePage<G>(games: seq<G>, i: nat, pageSize: int, pageNumber: int)
    requires pageSize > 0 && pageNumber >= 1 && i < |games|
    ensures var r := GamePage(games, i / pageSize + 1, pageSize);
            && r.Done? && i % pageSize < |r.value.games| && r.value.games[i % pageSize] == games[i]
    ensures (pageNumber - 1) * pageSize <= i < pageNumber * pageSize <==> pageNumber == i / pageSize + 1
  {
    PageOfIndex(i, pageSize, pageNumber);
    var q, off := i / pageSize, i % pageSize;
    assert i == pageSize * q + off;
    assert q * pageSize + off == i;
    GameAtOffset(games, q, off, pageSize);
  }

  /** Products with a positive factor keep the order of the other factor. */
  lemma MulMonotonic(a: int, b: int, k: int)
    requires a <= b && k > 0
    ensures a * k <= b * k
  {
  }

  /** A page number lies before the last page exactly when more games follow it. */
  lemma {:induction false} BeforeLastPage(total: nat, pageNumber: int, pageSize: int)
    requires pageSize > 0 && pageNumber >= 1
    ensures pageNumber < FloorDiv(total + pageSize - 1, pageSize) <==> pageNumber * pageSize < total
  {
    var tp := FloorDiv(total + pageSize - 1, pageSize);
    TotalPagesIsCeiling(total, pageSize);
    if pageNumber < tp {
      MulMonotonic(pageNumber, tp - 1, pageSize);
    } else if total > 0 {
      MulMonotonic(tp, pageNumber, pageSize);
    } else {
      MulMonotonic(1, pageNumber, pageSize);
    }
  }

  /** has_next is set exactly when the following page holds at least one game. */
  lemma {:induction false} HasNextIffMoreGames<G>(games: seq<G>, pageNumber: int, pageSize: int)
    requires pageSize > 0 && pageNumber >= 1
    ensures var r := GamePage(games, pageNumber, pageSize);
            r.Done? && (r.value.hasNext <==> pageNumber * pageSize < |games|)
  {
    ValidPages(games, pageNumber, pageSize);
    BeforeLastPage(|games|, pageNumber, pageSize);
  }
}
