/**
  The list-layout product row's own state: the quantity stepper with its
  typed-input box, and the wishlist heart.
 */
module ProductRow {
  import opened Wrappers
  import opened Catalog
  import opened JsMath

  /** The minus button: one less, but never below 1. */
  function Decremented(quantity: int): (r: int)
    ensures r >= 1
    ensures quantity > 1 ==> r == quantity - 1
    ensures quantity <= 1 ==> r == 1
  {
    Greatest(1, quantity - 1)
  }

  /** The minus button undoes the plus button on any valid quantity. */
  lemma DecrementUndoesIncrement(quantity: int)
    requires quantity >= 1
    ensures Decremented(quantity + 1) == quantity
  {
  }

  /**
    The typed-input box. `parsed` is what `parseInt` makes of the text,
    `None` standing for `NaN`. Only a positive number replaces the quantity.
   */
  function Typed(quantity: int, parsed: Option<int>): (r: int)
    ensures parsed.Some? && parsed.value > 0 ==> r == parsed.value
    ensures !(parsed.Some? && parsed.value > 0) ==> r == quantity
    ensures quantity >= 1 ==> r >= 1
  {
    match parsed
    case Some(v) => if v > 0 then v else quantity
    case None => quantity
  }

  /** What the user does to the stepper. */
  datatype Edit = Increment | Decrement | TypeIn(parsed: Option<int>)

  /** The quantity after one edit. */
  function Apply(quantity: int, edit: Edit): (r: int)
    ensures quantity >= 1 ==> r >= 1
  {
    match edit
    case Increment => quantity + 1
    case Decrement => Decremented(quantity)
    case TypeIn(parsed) => Typed(quantity, parsed)
  }

  /** The quantity after each edit in turn. */
  function Replay(quantity: int, edits: seq<Edit>): int
    decreases |edits|
  {
    if edits == [] then quantity
    else
      Replay(Apply(quantity, edits[0]), edits[1..])
  }

  /** No run of edits takes a valid quantity below 1. */
  lemma {:induction false} ReplayStaysPositive(quantity: int, edits: seq<Edit>)
    requires quantity >= 1
    ensures Replay(quantity, edits) >= 1
    decreases |edits|
  {
    if edits != [] {
      ReplayStaysPositive(Apply(quantity, edits[0]), edits[1..]);
    }
  }

  /** `n` presses of one button. */
  function Presses(edit: Edit, n: nat): (r: seq<Edit>)
    ensures |r| == n && forall i :: 0 <= i < n ==> r[i] == edit
  {
    seq(n, _ => edit)
  }

  /** Replaying two runs of edits is replaying the first, then the second. */
  lemma {:induction false} ReplayAppend(quantity: int, first: seq<Edit>, second: seq<Edit>)
    ensures Replay(quantity, first + second) == Replay(Replay(quantity, first), second)
    decreases |first|
  {
    if first != [] {
      assert (first + second)[0] == first[0] && (first + second)[1..] == first[1..] + second;
      ReplayAppend(Apply(quantity, first[0]), first[1..], second);
    } else {
      assert first + second == second;
    }
  }

  /** `n` presses of plus add exactly `n`. */
  lemma {:induction false} IncrementsAdd(quantity: int, n: nat)
    ensures Replay(quantity, Presses(Increment, n)) == quantity + n
    decreases n
  {
    if n > 0 {
      assert Presses(Increment, n)[1..] == Presses(Increment, n - 1);
      IncrementsAdd(quantity + 1, n - 1);
    }
  }

  /** `n` presses of minus from a valid quantity stop at 1. */
  lemma {:induction false} DecrementsStopAtOne(quantity: int, n: nat)
    requires quantity >= 1
    ensures Replay(quantity, Presses(Decrement, n)) == if quantity - n >= 1 then quantity - n else 1
    decreases n
  {
    if n > 0 {
      assert Presses(Decrement, n)[1..] == Presses(Decrement, n - 1);
      DecrementsStopAtOne(Decremented(quantity), n - 1);
    }
  }

  /** `n` presses of plus, then `n` of minus, bring a valid quantity back. */
  lemma PlusThenMinusRestores(quantity: int, n: nat)
    requires quantity >= 1
    ensures Replay(quantity, Presses(Increment, n) + Presses(Decrement, n)) == quantity
  {
    ReplayAppend(quantity, Presses(Increment, n), Presses(Decrement, n));
    IncrementsAdd(quantity, n);
    DecrementsStopAtOne(quantity + n, n);
  }

  /** The state of one product row in the list layout. */
  class ProductListItem {
    const product: Product
    var isWishlisted: bool
    var quantity: int

    /** The quantity never drops below 1. */
    predicate Valid()
      reads this
    {
      quantity >= 1
    }

    /** Mounting: quantity 1, not wishlisted. */
    constructor (product: Product)
      ensures Valid()
      ensures this.product == product && quantity == 1 && !isWishlisted
    {
      this.product := product;
      isWishlisted := false;
      quantity := 1;
    }

    /** The plus button. */
    method IncrementQuantity()
      requires Valid()
      modifies this
      ensures Valid()
      ensures quantity == old(quantity) + 1 && isWishlisted == old(isWishlisted)
    {
      quantity := quantity + 1;
    }

    /** The minus button. */
    method DecrementQuantity()
      requires Valid()
      modifies this
      ensures Valid()
      ensures quantity == Decremented(old(quantity)) && isWishlisted == old(isWishlisted)
    {
      quantity := Greatest(1, quantity - 1);
    }

    /** The typed-input box's change handler. */
    method ChangeQuantityInput(parsed: Option<int>)
      requires Valid()
      modifies this
      ensures Valid()
      ensures quantity == Typed(old(quantity), parsed) && isWishlisted == old(isWishlisted)
    {
      if parsed.Some? && parsed.value > 0 {
        quantity := parsed.value;
      }
    }

    /** The heart button: wishlisted if it was not, and back; twice is no change. */
    method ToggleWishlist()
      modifies this
      ensures isWishlisted == !old(isWishlisted) && quantity == old(quantity)
    {
      isWishlisted := !isWishlisted;
    }
  }
}
