/**
  The filter sidebar's own state: the price range driven by a range slider
  on `[0, 1000]` in steps of 10, and the list of ticked star ratings.
 */
module Sidebar {
  import opened Wrappers
  import opened Sequences
  import opened RangeSlider

  /** The rating checkboxes, top to bottom. */
  const OfferedRatings: seq<int> := [5, 4, 3, 2, 1]

  /** The price range before the user touches the slider. */
  const InitialPriceRange: (int, int) := (0, 1000)

  /** The test handed to `selectedRatings.filter` when `rating` is unticked. */
  function IsNot(rating: int): int -> bool {
    x => x != rating
  }

  /**
    `handleRatingToggle`'s new list: drop every copy of `rating` if it is
    ticked, otherwise tick it by appending it after the others.
   */
  function Toggle(ratings: seq<int>, rating: int): (t: seq<int>)
    ensures rating in t <==> rating !in ratings
    ensures forall x :: x != rating ==> (x in t <==> x in ratings)
  {
    if rating in ratings then
      FilterMembership(ratings, IsNot(rating));
      Filter(ratings, IsNot(rating))
    else
      ratings + [rating]
  }

  /** Ticking a rating appends it and leaves the ticked ones where they were. */
  lemma ToggleAbsentAppends(ratings: seq<int>, rating: int)
    requires rating !in ratings
    ensures |Toggle(ratings, rating)| == |ratings| + 1
    ensures Toggle(ratings, rating)[..|ratings|] == ratings
    ensures Toggle(ratings, rating)[|ratings|] == rating
  {
  }

  /**
    Unticking a rating removes every copy of it and keeps every other
    rating, each as often as before and in the same relative order.
   */
  lemma {:induction false} TogglePresentRemoves(ratings: seq<int>, rating: int)
    requires rating in ratings
    ensures IsSubsequence(Toggle(ratings, rating), ratings)
    ensures multiset(Toggle(ratings, rating)) == multiset(ratings)[rating := 0]
  {
    var t := Toggle(ratings, rating);
    FilterIsSubsequence(ratings, IsNot(rating));
    forall x ensures multiset(t)[x] == multiset(ratings)[rating := 0][x] {
      FilterCount(ratings, IsNot(rating), x);
    }
  }

  /** A list without repeats stays without repeats. */
  lemma {:induction false} ToggleKeepsDistinct(ratings: seq<int>, rating: int)
    requires Distinct(ratings)
    ensures Distinct(Toggle(ratings, rating))
  {
    if rating in ratings {
      FilterDistinct(ratings, IsNot(rating));
    } else {
      var t := ratings + [rating];
      forall i, j | 0 <= i < j < |t| ensures t[i] != t[j] {
        if j == |ratings| {
          assert t[i] == ratings[i];
        }
      }
    }
  }

  /** Ticking then unticking a rating restores the list exactly. */
  lemma {:induction false} ToggleTwiceFromAbsent(ratings: seq<int>, rating: int)
    requires rating !in ratings
    ensures Toggle(Toggle(ratings, rating), rating) == ratings
  {
    FilterAppend(ratings, [rating], IsNot(rating));
    FilterAllPass(ratings, IsNot(rating));
    assert Filter([rating], IsNot(rating)) == [];
  }

  /**
    Unticking then ticking a rating of a list without repeats keeps the same
    ratings; the re-ticked one moves to the end.
   */
  lemma {:induction false} ToggleTwiceFromPresent(ratings: seq<int>, rating: int)
    requires Distinct(ratings) && rating in ratings
    ensures Toggle(Toggle(ratings, rating), rating) == Filter(ratings, IsNot(rating)) + [rating]
    ensures multiset(Toggle(Toggle(ratings, rating), rating)) == multiset(ratings)
  {
    TogglePresentRemoves(ratings, rating);
    DistinctCountsOnce(ratings, rating);
    var t := Toggle(ratings, rating);
    assert Toggle(t, rating) == t + [rating];
    assert multiset(t + [rating]) == multiset(t) + multiset{rating};
  }

  /** Toggling the ratings `clicks` one after another, from `ratings`. */
  function ToggleAll(ratings: seq<int>, clicks: seq<int>): seq<int>
    decreases |clicks|
  {
    if clicks == [] then ratings else ToggleAll(Toggle(ratings, clicks[0]), clicks[1..])
  }

  /**
    From a list without repeats of offered ratings (the initial empty list
    is one), any run of clicks on the offered checkboxes ticks only offered
    ratings and never ticks one twice.
   */
  lemma {:induction false} ClicksKeepTicksDistinct(ratings: seq<int>, clicks: seq<int>)
    requires Distinct(ratings) && forall x :: x in ratings ==> x in OfferedRatings
    requires forall c :: c in clicks ==> c in OfferedRatings
    ensures Distinct(ToggleAll(ratings, clicks))
    ensures forall x :: x in ToggleAll(ratings, clicks) ==> x in OfferedRatings
    decreases |clicks|
  {
    if clicks != [] {
      ToggleKeepsDistinct(ratings, clicks[0]);
      ClicksKeepTicksDistinct(Toggle(ratings, clicks[0]), clicks[1..]);
    }
  }

  /** The price range's invariant: handles on `[0, 1000]`, at least 10 apart. */
  predicate PriceRangeOk(range: (int, int)) {
    WellPlaced(0, 1000, 10, range)
  }

  /** The sidebar's own state, with the slider it renders for the price range. */
  class FilterSidebar {
    var priceRange: (int, int)
    var selectedRatings: seq<int>
    const slider: Slider

    /** The price range is well placed and no rating is ticked twice. */
    ghost predicate Valid()
      reads this
    {
      PriceRangeOk(priceRange) && Distinct(selectedRatings)
      && slider.min == 0 && slider.max == 1000 && slider.step == 10
    }

    /** Mounting: the full price range, no rating ticked, a fresh slider. */
    constructor ()
      ensures Valid()
      ensures priceRange == InitialPriceRange && selectedRatings == []
      ensures slider.dragging == None
    {
      priceRange := InitialPriceRange;
      selectedRatings := [];
      slider := new Slider(0, 1000, 10);
    }

    /** A rating checkbox's change handler. */
    method HandleRatingToggle(rating: int)
      requires Valid()
      modifies this
      ensures Valid()
      ensures selectedRatings == Toggle(old(selectedRatings), rating)
      ensures priceRange == old(priceRange)
    {
      ToggleKeepsDistinct(selectedRatings, rating);
      if rating in selectedRatings {
        selectedRatings := Filter(selectedRatings, IsNot(rating));
      } else {
        selectedRatings := selectedRatings + [rating];
      }
    }

    /** Pressing one of the slider's handles. */
    method PressPriceHandle(handle: Handle)
      requires Valid()
      modifies slider
      ensures Valid()
      ensures slider.dragging == Some(handle)
    {
      slider.HandleMouseDown(handle);
    }

    /** Releasing the mouse after a drag. */
    method ReleasePriceHandle()
      requires Valid()
      modifies slider
      ensures Valid()
      ensures slider.dragging == None
    {
      slider.HandleMouseUp();
    }

    /** A mouse move: the slider's change, if any, becomes the new price range. */
    method MovePriceHandle(trackMounted: bool, newValue: int)
      requires Valid()
      modifies this
      ensures Valid()
      ensures priceRange == MoveHandle(0, 1000, 10, old(priceRange), slider.dragging, trackMounted, newValue).GetOr(old(priceRange))
      ensures selectedRatings == old(selectedRatings)
    {
      var change := slider.HandleMouseMove(priceRange, trackMounted, newValue);
      MoveKeepsWellPlaced(0, 1000, 10, priceRange, slider.dragging, trackMounted, newValue);
      if change.Some? {
        priceRange := change.value;
      }
    }
  }
}
