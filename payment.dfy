/** The payment page of src/pages/Payment.js: the card-field formatters,
    the card validator, the order id, and the "persist the order, then clear
    the cart" step. */
module Payment {
  import opened Wrappers
  import opened Text
  import opened Records
  import OrderIds
  import Db
  import CartContext
  import Checkout

  /** The four inputs of the card form, which are also the keys of its
      error object. */
  datatype CardField = CardNumber | Expiry | Cvv | CardholderName

  datatype CardDetails = CardDetails(cardNumber: string, expiry: string, cvv: string, cardholderName: string)

  const CardNumberRequired: string := "Card number is required"
  const CardNumberInvalid: string := "Please enter a valid 16-digit card number"
  const ExpiryRequired: string := "Expiry date is required"
  const ExpiryInvalid: string := "Please enter a valid expiry date (MM/YY)"
  const CvvRequired: string := "CVV is required"
  const CvvInvalid: string := "Please enter a valid 3-digit CVV"
  const CardholderRequired: string := "Cardholder name is required"

  // ---------------------------------------------------------------- formatters

  /** `replace(/(\d{4})/g, '$1 ')`: scanning from the left, every run of four
      digits found is followed by a space; elsewhere the scan moves on by one
      character. */
  function GroupDigits(s: string): string
    decreases |s|
  {
    if |s| >= 4 && AllDigits(s[..4]) then s[..4] + " " + GroupDigits(s[4..])
    else if s == [] then []
    else [s[0]] + GroupDigits(s[1..])
  }

  /** The card-number formatter: drop all white space, group, trim. */
  function CardFormat(v: string): (r: string)
    ensures r == [] || (!IsSpace(r[0]) && !IsSpace(r[|r| - 1]))
  {
    Trim(GroupDigits(RemoveSpaces(v)))
  }

  /** `replace(/\D/g, '').replace(/(\d{2})(\d{2})/, '$1/$2')`: keep the
      digits and, once there are four, put a slash after the first two. */
  function ExpiryFormat(v: string): (r: string)
    ensures (5 <= |r| && r[2] == '/') || (|r| <= 3 && AllDigits(r))
    ensures |r| <= |v| + 1
  {
    var d := KeepDigits(v);
    if |d| >= 4 then d[..2] + "/" + d[2..] else d
  }

  /** `replace(/\D/g, '').slice(0, 3)`. */
  function CvvFormat(v: string): (r: string)
    ensures AllDigits(r) && |r| <= 3
  {
    var d := KeepDigits(v);
    if |d| <= 3 then d else d[..3]
  }

  /** Grouping only inserts spaces. */
  lemma {:induction false} GroupDigitsUnspaced(s: string)
    requires NoSpaces(s)
    ensures RemoveSpaces(GroupDigits(s)) == s
    decreases |s|
  {
    if |s| >= 4 && AllDigits(s[..4]) {
      GroupDigitsUnspaced(s[4..]);
      RemoveSpacesAppend(s[..4] + " ", GroupDigits(s[4..]));
      RemoveSpacesAppend(s[..4], " ");
      RemoveSpacesOfNoSpaces(s[..4]);
      assert s == s[..4] + s[4..];
    } else if s != [] {
      GroupDigitsUnspaced(s[1..]);
      RemoveSpacesAppend([s[0]], GroupDigits(s[1..]));
      assert s == [s[0]] + s[1..];
    }
  }

  /** Removing the spaces of the formatted number gives back the input with
      all its white space removed. */
  lemma CardFormatUnspaced(v: string)
    ensures RemoveSpaces(CardFormat(v)) == RemoveSpaces(v)
  {
    RemoveSpacesOfTrim(GroupDigits(RemoveSpaces(v)));
    GroupDigitsUnspaced(RemoveSpaces(v));
  }

  /** Formatting an already formatted number changes nothing. */
  lemma CardFormatIdempotent(v: string)
    ensures CardFormat(CardFormat(v)) == CardFormat(v)
  {
    CardFormatUnspaced(v);
  }

  lemma TrimEndOfSpaced(x: string)
    requires x != [] && !IsSpace(x[|x| - 1])
    ensures TrimEnd(x + " ") == x
  {
    assert (x + " ")[..|x|] == x;
  }

  /** Sixteen digits are shown as four groups of four, 19 characters long,
      which is the input's `maxLength`. */
  lemma CardFormatOfSixteen(d: string)
    requires |d| == 16 && AllDigits(d)
    ensures CardFormat(d) == d[..4] + " " + d[4..8] + " " + d[8..12] + " " + d[12..]
    ensures |CardFormat(d)| == 19
  {
    DigitsHaveNoSpaces(d);
    RemoveSpacesOfNoSpaces(d);
    assert d[4..][..4] == d[4..8] && d[4..][4..] == d[8..];
    assert d[8..][..4] == d[8..12] && d[8..][4..] == d[12..];
    assert d[12..][..4] == d[12..] && d[12..][4..] == [];
    var x := d[..4] + " " + d[4..8] + " " + d[8..12] + " " + d[12..];
    assert GroupDigits(d[12..][4..]) == [];
    assert GroupDigits(d[12..]) == d[12..] + " ";
    assert GroupDigits(d[8..]) == d[8..12] + " " + d[12..] + " ";
    assert GroupDigits(d[4..]) == d[4..8] + " " + d[8..12] + " " + d[12..] + " ";
    assert GroupDigits(d) == x + " ";
    assert TrimStart(x + " ") == x + " ";
    TrimEndOfSpaced(x);
  }

  predicate ExpiryPattern(s: string) {
    |s| == 5 && IsDigit(s[0]) && IsDigit(s[1]) && s[2] == '/' && IsDigit(s[3]) && IsDigit(s[4])
  }

  predicate CvvPattern(s: string) {
    |s| == 3 && AllDigits(s)
  }

  /** The expiry formatter keeps exactly the digits typed, and its output
      has the MM/YY shape exactly when four digits were typed. */
  lemma ExpiryFormatSpec(v: string)
    ensures KeepDigits(ExpiryFormat(v)) == KeepDigits(v)
    ensures ExpiryPattern(ExpiryFormat(v)) <==> |KeepDigits(v)| == 4
  {
    var d := KeepDigits(v);
    KeepDigitsOfDigits(d);
    if |d| >= 4 {
      assert d == d[..2] + d[2..];
      KeepDigitsOfDigits(d[..2]);
      KeepDigitsOfDigits(d[2..]);
      KeepDigitsAppend(d[..2] + "/", d[2..]);
      KeepDigitsAppend(d[..2], "/");
    }
  }

  /** The CVV formatter keeps the first three digits typed; its output has
      the three-digit shape exactly when at least three were typed. */
  lemma CvvFormatSpec(v: string)
    ensures CvvFormat(v) == KeepDigits(v)[..|CvvFormat(v)|]
    ensures CvvPattern(CvvFormat(v)) <==> |KeepDigits(v)| >= 3
  {
  }

  // ---------------------------------------------------------------- validator

  /** `validateCardDetails` for the card method: the error object built
      field by field. A test `!s.trim()` is written `IsBlank(s)` (see
      `Text.TrimEmptyIffBlank`); for the card number, whose white space has
      already been removed, it is the test for the empty string. Nothing
      checks that the card number consists of digits. */
  function CardErrors(c: CardDetails): (errs: map<CardField, string>)
    ensures CardholderName in errs <==> IsBlank(c.cardholderName)
    ensures CardNumber in errs <==> |RemoveSpaces(c.cardNumber)| != 16
  {
    var n := RemoveSpaces(c.cardNumber);
    var e1: map<CardField, string> :=
      if n == [] then map[CardNumber := CardNumberRequired]
      else Note(map[], |n| != 16, CardNumber, CardNumberInvalid);
    var e2 := if IsBlank(c.expiry) then e1[Expiry := ExpiryRequired]
              else Note(e1, !ExpiryPattern(c.expiry), Expiry, ExpiryInvalid);
    var e3 := if IsBlank(c.cvv) then e2[Cvv := CvvRequired]
              else Note(e2, !CvvPattern(c.cvv), Cvv, CvvInvalid);
    Note(e3, IsBlank(c.cardholderName), CardholderName, CardholderRequired)
  }

  /** Which fields fail and with which message. */
  lemma CardErrorsSpec(c: CardDetails)
    ensures CardNumber in CardErrors(c) <==> |RemoveSpaces(c.cardNumber)| != 16
    ensures Expiry in CardErrors(c) <==> !ExpiryPattern(c.expiry)
    ensures Cvv in CardErrors(c) <==> !CvvPattern(c.cvv)
    ensures CardholderName in CardErrors(c) <==> IsBlank(c.cardholderName)
    ensures CardNumber in CardErrors(c) ==>
      CardErrors(c)[CardNumber] == (if RemoveSpaces(c.cardNumber) == [] then CardNumberRequired else CardNumberInvalid)
    ensures Expiry in CardErrors(c) ==>
      CardErrors(c)[Expiry] == (if IsBlank(c.expiry) then ExpiryRequired else ExpiryInvalid)
    ensures Cvv in CardErrors(c) ==>
      CardErrors(c)[Cvv] == (if IsBlank(c.cvv) then CvvRequired else CvvInvalid)
    ensures CardholderName in CardErrors(c) ==> CardErrors(c)[CardholderName] == CardholderRequired
  {
    if IsBlank(c.expiry) && |c.expiry| == 5 {
      assert !IsDigit(c.expiry[0]);
    }
    if IsBlank(c.cvv) && c.cvv != [] {
      BlankIsNotDigits(c.cvv);
    }
  }

  /** The card form passes exactly when the white-space-free number has 16
      characters, the expiry has the MM/YY shape (any two digits are
      accepted as a month), the CVV is three digits and a name is given. */
  lemma CardValidIff(c: CardDetails)
    ensures CardErrors(c) == map[] <==>
      |RemoveSpaces(c.cardNumber)| == 16 && ExpiryPattern(c.expiry) && CvvPattern(c.cvv)
      && !IsBlank(c.cardholderName)
  {
    CardErrorsSpec(c);
    if CardErrors(c) != map[] {
      var k :| k in CardErrors(c);
    }
  }

  /** What the formatters produce from 16, 4 and 3 typed digits, with a
      name, passes the validator, and formatting never changes the verdict
      on the card number. */
  lemma FormattedCardPasses(number: string, expiry: string, cvv: string, name: string)
    requires |number| == 16 && AllDigits(number)
    requires |expiry| == 4 && AllDigits(expiry)
    requires |cvv| == 3 && AllDigits(cvv)
    requires !IsBlank(name)
    ensures CardErrors(CardDetails(CardFormat(number), ExpiryFormat(expiry), CvvFormat(cvv), name)) == map[]
  {
    CardFormatUnspaced(number);
    DigitsHaveNoSpaces(number);
    RemoveSpacesOfNoSpaces(number);
    KeepDigitsOfDigits(expiry);
    ExpiryFormatSpec(expiry);
    KeepDigitsOfDigits(cvv);
    CvvFormatSpec(cvv);
    CardValidIff(CardDetails(CardFormat(number), ExpiryFormat(expiry), CvvFormat(cvv), name));
  }

  lemma CardNumberVerdictStable(c: CardDetails)
    ensures (CardNumber in CardErrors(c)) == (CardNumber in CardErrors(c.(cardNumber := CardFormat(c.cardNumber))))
  {
    CardFormatUnspaced(c.cardNumber);
    CardErrorsSpec(c);
    CardErrorsSpec(c.(cardNumber := CardFormat(c.cardNumber)));
  }

  // ---------------------------------------------------------------- screens

  datatype PaymentScreen = RedirectToCart | Confirmation | PaymentForm

  /** The screen as the component renders it: the guard against a missing
      address or an empty cart comes before the confirmation. */
  function ScreenAsWritten(hasAddress: bool, cartSize: nat, orderPlaced: bool): (s: PaymentScreen)
    ensures s == RedirectToCart <==> !hasAddress || cartSize == 0
    ensures s == Confirmation <==> hasAddress && cartSize > 0 && orderPlaced
  {
    if !hasAddress || cartSize == 0 then RedirectToCart
    else if orderPlaced then Confirmation
    else PaymentForm
  }

  /** The screen as evidently intended: a placed order is confirmed. */
  function Screen(hasAddress: bool, cartSize: nat, orderPlaced: bool): (s: PaymentScreen)
    ensures s == Confirmation <==> orderPlaced
  {
    if orderPlaced then Confirmation
    else if !hasAddress || cartSize == 0 then RedirectToCart
    else PaymentForm
  }

  /** The two disagree exactly on a placed order whose cart is empty, which
      is the state a successful payment leaves behind. */
  lemma ScreensDisagree(hasAddress: bool, cartSize: nat, orderPlaced: bool)
    ensures ScreenAsWritten(hasAddress, cartSize, orderPlaced) != Screen(hasAddress, cartSize, orderPlaced)
      <==> orderPlaced && (!hasAddress || cartSize == 0)
    ensures ScreenAsWritten(true, 0, true) == RedirectToCart
  {
  }

  // ---------------------------------------------------------------- the page

  class PaymentPage {
    const cart: CartContext.CartManager
    /** The state the checkout page navigated with, absent when the page is
        opened directly. */
    const checkout: Option<Checkout.PaymentState>
    var paymentMethod: PaymentMethod
    var card: CardDetails
    var errors: map<CardField, string>
    var processing: bool
    var orderPlaced: bool
    var orderId: string

    constructor (cart: CartContext.CartManager, checkout: Option<Checkout.PaymentState>)
      ensures this.cart == cart && this.checkout == checkout
      ensures paymentMethod == Card && card == CardDetails("", "", "", "") && errors == map[]
      ensures !processing && !orderPlaced && orderId == ""
    {
      this.cart := cart;
      this.checkout := checkout;
      paymentMethod := Card;
      card := CardDetails("", "", "", "");
      errors := map[];
      processing := false;
      orderPlaced := false;
      orderId := "";
    }

    function ShownAsWritten(): PaymentScreen
      reads this, cart
    {
      ScreenAsWritten(checkout.Some?, |cart.items|, orderPlaced)
    }

    function Shown(): PaymentScreen
      reads this, cart
    {
      Screen(checkout.Some?, |cart.items|, orderPlaced)
    }

    method SelectMethod(m: PaymentMethod)
      modifies this`paymentMethod
      ensures paymentMethod == m
    {
      paymentMethod := m;
    }

    /** `handleCardChange`: store the formatted value and blank out that
        field's message if it had one. */
    method HandleCardChange(f: CardField, value: string)
      modifies this`card, this`errors
      ensures f == CardNumber ==> card == old(card).(cardNumber := CardFormat(value))
      ensures f == Expiry ==> card == old(card).(expiry := ExpiryFormat(value))
      ensures f == Cvv ==> card == old(card).(cvv := CvvFormat(value))
      ensures f == CardholderName ==> card == old(card).(cardholderName := value)
      ensures errors == if f in old(errors) && old(errors)[f] != "" then old(errors)[f := ""] else old(errors)
    {
      SetField(f, value);
      ClearError(f);
    }

    method SetField(f: CardField, value: string)
      modifies this`card
      ensures f == CardNumber ==> card == old(card).(cardNumber := CardFormat(value))
      ensures f == Expiry ==> card == old(card).(expiry := ExpiryFormat(value))
      ensures f == Cvv ==> card == old(card).(cvv := CvvFormat(value))
      ensures f == CardholderName ==> card == old(card).(cardholderName := value)
    {
      match f {
        case CardNumber => card := card.(cardNumber := CardFormat(value));
        case Expiry => card := card.(expiry := ExpiryFormat(value));
        case Cvv => card := card.(cvv := CvvFormat(value));
        case CardholderName => card := card.(cardholderName := value);
      }
    }

    method ClearError(f: CardField)
      modifies this`errors
      ensures errors == if f in old(errors) && old(errors)[f] != "" then old(errors)[f := ""] else old(errors)
    {
      if f in errors && errors[f] != "" {
        errors := errors[f := ""];
      }
    }

    /** The order `handlePayment` writes, before the store adds its key. */
    function NewOrder(id: string, email: string, items: seq<CartItem>, orderDate: int): (o: Order)
      requires checkout.Some?
      reads this
      ensures o.orderId == id && o.userEmail == email && o.items == items && o.status == Confirmed
      ensures o.orderDate == orderDate && o.paymentMethod == paymentMethod
      ensures o.shippingAddress == checkout.value.shippingAddress
      ensures o.subtotal == checkout.value.subtotal && o.tax == checkout.value.tax && o.total == checkout.value.total
    {
      var st := checkout.value;
      Order(0, id, email, items, st.shippingAddress, st.subtotal, st.tax, st.total, paymentMethod, orderDate, Confirmed)
    }

    /** `validateCardDetails` as `handlePayment` calls it, for the card
        method: replace the error object and report whether it is empty. */
    method ValidateCardDetails() returns (ok: bool)
      modifies this`errors
      ensures errors == CardErrors(card)
      ensures ok <==> errors == map[]
    {
      errors := CardErrors(card);
      ok := errors == map[];
    }

    /** What the delayed part of `handlePayment` does to the page, the
        cart and the store, given their earlier state (the cart mirror, the
        cart and order rows, the order key generator, the placed flag and
        whether mirror and store agreed): a fresh order id is shown; with a signed-in user
        the order is written first, and only once it is stored is the cart
        cleared and the order marked placed (even when the clear fails);
        the page is no longer processing. */
    ghost predicate Placed(items0: seq<CartItem>, cart0: map<int, CartItem>, orders0: map<int, Order>,
                           nextOrder0: int, placed0: bool, synced0: bool,
                           idClock: nat, orderDate: int, addFault: bool, clearFault: bool)
      requires checkout.Some?
      reads this, cart, cart.db, cart.session
    {
      && cart.db.Valid()
      && (synced0 ==> cart.Synced())
      && !processing && orderId == OrderIds.OrderId(idClock)
      && (cart.session.user.None? || addFault ==>
            && orderPlaced == placed0 && cart.items == items0
            && cart.db.orders == orders0 && cart.db.cart == cart0)
      && (cart.session.user.Some? && !addFault ==>
            var o := NewOrder(OrderIds.OrderId(idClock), cart.session.user.value.email, items0, orderDate);
            && nextOrder0 !in orders0
            && cart.db.orders == orders0[nextOrder0 := o.(id := nextOrder0)]
            && orderPlaced)
      && (cart.session.user.Some? && !addFault && clearFault ==>
            cart.items == items0 && cart.db.cart == cart0)
      && (cart.session.user.Some? && !addFault && !clearFault ==>
            && cart.items == []
            && cart.db.cart == Db.WithoutOwner(cart0, cart.session.user.value.email)
            && ShownAsWritten() == RedirectToCart
            && Shown() == Confirmation)
    }

    /** The `setTimeout` callback of `handlePayment`, run at once. `idClock`
        and `orderDate` are its two clock readings, the faults the store's
        verdicts on the order write and the cart clear. */
    method PlaceOrder(idClock: nat, orderDate: int, addFault: bool, clearFault: bool)
      requires checkout.Some? && cart.db.Valid()
      modifies this`processing, this`orderId, this`orderPlaced
      modifies cart`items, cart.db`stores, cart.db`cart, cart.db`orders, cart.db`nextOrderKey
      ensures Placed(old(cart.items), old(cart.db.cart), old(cart.db.orders), old(cart.db.nextOrderKey),
                     old(orderPlaced), old(cart.Synced()), idClock, orderDate, addFault, clearFault)
    {
      processing := true;
      var newId := OrderIds.OrderId(idClock);
      orderId := newId;
      if cart.session.user.Some? {
        // Without a user, `user.email` throws and the callback's catch
        // swallows it.
        SaveAndClear(newId, orderDate, addFault, clearFault);
      }
      processing := false;
    }

    /** The `try` block of the callback for a signed-in user: write the
        order; once it is stored, clear the cart and mark the order placed. */
    method SaveAndClear(newId: string, orderDate: int, addFault: bool, clearFault: bool)
      requires checkout.Some? && cart.db.Valid() && cart.session.user.Some?
      modifies this`orderPlaced
      modifies cart`items, cart.db`stores, cart.db`cart, cart.db`orders, cart.db`nextOrderKey
      ensures cart.db.Valid()
      ensures old(cart.Synced()) ==> cart.Synced()
      ensures addFault ==>
        && orderPlaced == old(orderPlaced) && cart.items == old(cart.items)
        && cart.db.orders == old(cart.db.orders) && cart.db.cart == old(cart.db.cart)
      ensures !addFault ==>
        var key := old(cart.db.nextOrderKey);
        var o := NewOrder(newId, cart.session.user.value.email, old(cart.items), orderDate);
        && key !in old(cart.db.orders)
        && cart.db.orders == old(cart.db.orders)[key := o.(id := key)]
        && orderPlaced
      ensures !addFault && clearFault ==> cart.items == old(cart.items) && cart.db.cart == old(cart.db.cart)
      ensures !addFault && !clearFault ==>
        && cart.items == []
        && cart.db.cart == Db.WithoutOwner(old(cart.db.cart), cart.session.user.value.email)
    {
      var order := NewOrder(newId, cart.session.user.value.email, cart.items, orderDate);
      var r := cart.db.AddOrder(order, addFault);
      if r.Ok? {
        var cleared := cart.ClearCart(clearFault);
        orderPlaced := true;
      }
    }

    /** `handlePayment`: with the card method, invalid details replace the
        error object and stop here, touching nothing else; otherwise the
        order is placed. The form is only rendered, and so only submitted,
        when the checkout state is present. */
    method HandlePayment(idClock: nat, orderDate: int, addFault: bool, clearFault: bool) returns (submitted: bool)
      requires checkout.Some? && cart.db.Valid()
      modifies this`errors, this`processing, this`orderId, this`orderPlaced
      modifies cart`items, cart.db`stores, cart.db`cart, cart.db`orders, cart.db`nextOrderKey
      ensures submitted <==> paymentMethod != Card || CardErrors(card) == map[]
      ensures errors == if paymentMethod == Card then CardErrors(card) else old(errors)
      ensures !submitted ==>
        && processing == old(processing)
        && orderId == old(orderId) && orderPlaced == old(orderPlaced)
        && cart.items == old(cart.items) && unchanged(cart.db)
      ensures submitted ==>
        Placed(old(cart.items), old(cart.db.cart), old(cart.db.orders), old(cart.db.nextOrderKey),
               old(orderPlaced), old(cart.Synced()), idClock, orderDate, addFault, clearFault)
    {
      if paymentMethod == Card {
        submitted := ValidateCardDetails();
        if !submitted {
          return;
        }
      }
      submitted := true;
      PlaceOrder(idClock, orderDate, addFault, clearFault);
    }
  }
}
