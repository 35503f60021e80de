/** The product modal of src/components/ProductModal.js: a quantity stepper
    bounded to 1..10, a size picker that sets the unit price, and the
    add-to-cart button that closes the modal only on success. */
module ProductModal {
  import opened Wrappers
  import Catalog
  import CartContext

  /** The stepper's bounds, as the buttons enforce them. */
  const MinQuantity: int := 1
  const MaxQuantity: int := 10

  /** `increaseQuantity` as a value: one more while below the cap. */
  function Increased(q: int): (r: int)
    ensures q < MaxQuantity ==> r == q + 1
    ensures q >= MaxQuantity ==> r == q
  {
    if q < MaxQuantity then q + 1 else q
  }

  /** `decreaseQuantity` as a value: one less while above the floor. */
  function Decreased(q: int): (r: int)
    ensures q > MinQuantity ==> r == q - 1
    ensures q <= MinQuantity ==> r == q
  {
    if q > MinQuantity then q - 1 else q
  }

  /** One click in the modal. */
  datatype Step = Increase | Decrease | PickSize(size: string)

  function StepQuantity(q: int, s: Step): int {
    match s
    case Increase => Increased(q)
    case Decrease => Decreased(q)
    case PickSize(_) => q
  }

  /** The quantity after a run of clicks starting from q. */
  function Run(q: int, steps: seq<Step>): int
    decreases |steps|
  {
    if steps == [] then q else Run(StepQuantity(q, steps[0]), steps[1..])
  }

  /** Whatever the clicks, a quantity in 1..10 stays there; in particular
      from the initial quantity 1. */
  lemma {:induction false} RunInRange(q: int, steps: seq<Step>)
    requires MinQuantity <= q <= MaxQuantity
    ensures MinQuantity <= Run(q, steps) <= MaxQuantity
    decreases |steps|
  {
    if steps != [] {
      RunInRange(StepQuantity(q, steps[0]), steps[1..]);
    }
  }

  /** Increasing at the cap and decreasing at the floor change nothing. */
  lemma AtBoundsNoOp()
    ensures Increased(MaxQuantity) == MaxQuantity
    ensures Decreased(MinQuantity) == MinQuantity
  {
  }

  /** Below the cap, increase then decrease gets back to the start. */
  lemma IncreaseThenDecrease(q: int)
    requires MinQuantity <= q < MaxQuantity
    ensures Decreased(Increased(q)) == q
  {
  }

  /** Size clicks never move the quantity, so only the +/- clicks count:
      a run's quantity is the run of its +/- clicks alone. */
  function Steppers(steps: seq<Step>): (r: seq<Step>)
    ensures forall s :: s in r ==> !s.PickSize?
    ensures |r| <= |steps|
    decreases |steps|
  {
    if steps == [] then []
    else if steps[0].PickSize? then Steppers(steps[1..])
    else [steps[0]] + Steppers(steps[1..])
  }

  lemma {:induction false} SizesDoNotMatter(q: int, steps: seq<Step>)
    ensures Run(q, Steppers(steps)) == Run(q, steps)
    decreases |steps|
  {
    if steps != [] {
      SizesDoNotMatter(StepQuantity(q, steps[0]), steps[1..]);
      if !steps[0].PickSize? {
        var rest := Steppers(steps[1..]);
        assert ([steps[0]] + rest)[0] == steps[0];
        assert ([steps[0]] + rest)[1..] == rest;
      }
    }
  }

  class Modal {
    const product: Catalog.Product
    var selectedSize: string
    var quantity: int
    var loading: bool
    /** Whether `onClose` has been called. */
    var closed: bool

    /** The stepper's bounds hold. */
    predicate Valid()
      reads this
    {
      MinQuantity <= quantity <= MaxQuantity
    }

    /** The modal opens on size `'50ml'` with quantity 1. */
    constructor (product: Catalog.Product)
      ensures this.product == product
      ensures selectedSize == "50ml" && quantity == 1
      ensures !loading && !closed
      ensures Valid()
    {
      this.product := product;
      selectedSize := "50ml";
      quantity := 1;
      loading := false;
      closed := false;
    }

    method IncreaseQuantity()
      modifies this`quantity
      ensures quantity == Increased(old(quantity))
      ensures old(Valid()) ==> Valid()
    {
      if quantity < MaxQuantity {
        quantity := quantity + 1;
      }
    }

    method DecreaseQuantity()
      modifies this`quantity
      ensures quantity == Decreased(old(quantity))
      ensures old(Valid()) ==> Valid()
    {
      if quantity > MinQuantity {
        quantity := quantity - 1;
      }
    }

    method SelectSize(size: string)
      modifies this`selectedSize
      ensures selectedSize == size
    {
      selectedSize := size;
    }

    /** Applies a run of clicks; the quantity ends where `Run` says. */
    method Click(steps: seq<Step>)
      modifies this`quantity, this`selectedSize
      ensures quantity == Run(old(quantity), steps)
      ensures old(Valid()) ==> Valid()
    {
      var i := 0;
      while i < |steps|
        invariant 0 <= i <= |steps|
        invariant Run(old(quantity), steps) == Run(quantity, steps[i..])
        invariant old(Valid()) ==> Valid()
      {
        assert steps[i..][1..] == steps[i + 1..];
        match steps[i] {
          case Increase => IncreaseQuantity();
          case Decrease => DecreaseQuantity();
          case PickSize(s) => SelectSize(s);
        }
        i := i + 1;
      }
    }

    /** The unit price: `price50ml` for `'50ml'`, `price100ml` for any
        other size. */
    function Price(): (price: int)
      reads this
      ensures price == (if selectedSize == "50ml" then product.price50ml else product.price100ml)
    {
      Catalog.PriceFor(product, selectedSize)
    }

    /** The unit price times the quantity. */
    function TotalPrice(): (total: int)
      reads this
      ensures selectedSize == "50ml" ==> total == product.price50ml * quantity
      ensures selectedSize != "50ml" ==> total == product.price100ml * quantity
    {
      Price() * quantity
    }

    /** `handleAddToCart`: hands the product, size and quantity to the
        cart, and closes the modal exactly when the cart reports success.
        Loading is off again afterwards either way. */
    method HandleAddToCart(cart: CartContext.CartManager, addedAt: string, ioFault: bool)
      returns (r: Outcome)
      requires cart.db.Valid()
      modifies this`loading, this`closed
      modifies cart`items, cart.db`stores, cart.db`cart, cart.db`nextCartKey
      ensures cart.db.Valid() && !loading
      ensures closed <==> old(closed) || r.Success?
      ensures r.Success? <==> cart.session.user.Some? && !ioFault
      ensures r.Success? ==>
        cart.items == old(cart.items) + [CartContext.NewLine(cart.session.user.value.email, product,
          selectedSize, quantity, addedAt).(id := old(cart.db.nextCartKey))]
      ensures r.Failure? ==> cart.items == old(cart.items)
      ensures old(cart.Synced()) ==> cart.Synced()
    {
      loading := true;
      r := cart.AddToCart(product, selectedSize, quantity, addedAt, ioFault);
      if r.Success? {
        closed := true;
      }
      loading := false;
    }
  }

  /** The line the modal adds from its initial state is priced at the
      product's 50ml price with quantity 1, whatever product it shows. */
  lemma InitialLine(p: Catalog.Product, e: string, addedAt: string)
    requires p in Catalog.Products
    ensures CartContext.NewLine(e, p, "50ml", 1, addedAt).price == p.price50ml
    ensures CartContext.CartTotal([CartContext.NewLine(e, p, "50ml", 1, addedAt)]) == p.price50ml
  {
    var l := CartContext.NewLine(e, p, "50ml", 1, addedAt);
    assert [l][..0] == [];
  }
}
