/** The checkout page: two form records, the order totals derived from the
    cart, the per-step validity rule, and the step / order-placement state
    machine (Shipping = 1, Payment = 2, Review = 3, then Processing and
    Placed). Money is exact (`real`). */
module Checkout {
  import opened App

  datatype CustomerInfo = CustomerInfo(
    firstName: string,
    lastName: string,
    email: string,
    phone: string,
    address: string,
    city: string,
    state: string,
    zipCode: string,
    country: string)

  datatype PaymentInfo = PaymentInfo(
    cardNumber: string,
    expiryDate: string,
    cvv: string,
    cardName: string)

  /** The keys of the two records, as passed to the field-change handlers. */
  datatype CustomerField =
    FirstName | LastName | Email | Phone | Address | City | State | ZipCode | Country

  datatype PaymentField = CardNumber | ExpiryDate | Cvv | CardName

  const InitialCustomerInfo: CustomerInfo :=
    CustomerInfo("", "", "", "", "", "", "", "", "United States")

  const InitialPaymentInfo: PaymentInfo := PaymentInfo("", "", "", "")

  // ---------------------------------------------------------------------
  // Field access and the change handlers

  function CustomerValue(c: CustomerInfo, f: CustomerField): string {
    match f
    case FirstName => c.firstName
    case LastName => c.lastName
    case Email => c.email
    case Phone => c.phone
    case Address => c.address
    case City => c.city
    case State => c.state
    case ZipCode => c.zipCode
    case Country => c.country
  }

  function PaymentValue(p: PaymentInfo, f: PaymentField): string {
    match f
    case CardNumber => p.cardNumber
    case ExpiryDate => p.expiryDate
    case Cvv => p.cvv
    case CardName => p.cardName
  }

  /** `{ ...prev, [field]: value }` on the customer record: the named field
      reads back `value`, every other field is unchanged. */
  function WithCustomerValue(c: CustomerInfo, f: CustomerField, value: string): (r: CustomerInfo)
    ensures CustomerValue(r, f) == value
    ensures forall g :: g != f ==> CustomerValue(r, g) == CustomerValue(c, g)
  {
    match f
    case FirstName => c.(firstName := value)
    case LastName => c.(lastName := value)
    case Email => c.(email := value)
    case Phone => c.(phone := value)
    case Address => c.(address := value)
    case City => c.(city := value)
    case State => c.(state := value)
    case ZipCode => c.(zipCode := value)
    case Country => c.(country := value)
  }

  /** `{ ...prev, [field]: value }` on the payment record. */
  function WithPaymentValue(p: PaymentInfo, f: PaymentField, value: string): (r: PaymentInfo)
    ensures PaymentValue(r, f) == value
    ensures forall g :: g != f ==> PaymentValue(r, g) == PaymentValue(p, g)
  {
    match f
    case CardNumber => p.(cardNumber := value)
    case ExpiryDate => p.(expiryDate := value)
    case Cvv => p.(cvv := value)
    case CardName => p.(cardName := value)
  }

  // ---------------------------------------------------------------------
  // Step validity

  /** The fields the shipping step insists on: all but phone and country. */
  const RequiredCustomerFields: set<CustomerField> :=
    {FirstName, LastName, Email, Address, City, State, ZipCode}

  /** `isStepValid`: a string is truthy when it is non-empty; step 1 needs
      the seven shipping fields, step 2 the four payment fields, any other
      step is always valid. */
  predicate IsStepValid(step: int, c: CustomerInfo, p: PaymentInfo) {
    if step == 1 then
      c.firstName != "" && c.lastName != "" && c.email != "" && c.address != ""
      && c.city != "" && c.state != "" && c.zipCode != ""
    else if step == 2 then
      p.cardNumber != "" && p.expiryDate != "" && p.cvv != "" && p.cardName != ""
    else
      true
  }

  /** Step 1 is valid exactly when every required customer field is
      non-empty, and step 2 exactly when every payment field is. */
  lemma StepValidity(c: CustomerInfo, p: PaymentInfo)
    ensures IsStepValid(1, c, p) <==> forall f :: f in RequiredCustomerFields ==> CustomerValue(c, f) != ""
    ensures IsStepValid(2, c, p) <==> forall f: PaymentField :: PaymentValue(p, f) != ""
    ensures forall step :: step != 1 && step != 2 ==> IsStepValid(step, c, p)
  {
    if forall f :: f in RequiredCustomerFields ==> CustomerValue(c, f) != "" {
      assert CustomerValue(c, FirstName) != "" && CustomerValue(c, LastName) != "";
      assert CustomerValue(c, Email) != "" && CustomerValue(c, Address) != "";
      assert CustomerValue(c, City) != "" && CustomerValue(c, State) != "";
      assert CustomerValue(c, ZipCode) != "";
    }
    if forall f: PaymentField :: PaymentValue(p, f) != "" {
      assert PaymentValue(p, CardNumber) != "" && PaymentValue(p, ExpiryDate) != "";
      assert PaymentValue(p, Cvv) != "" && PaymentValue(p, CardName) != "";
    }
  }

  /** Editing phone or country never changes whether a step is valid, and
      editing a payment field never changes step 1 (nor a customer field
      step 2). */
  lemma IrrelevantFields(step: int, c: CustomerInfo, p: PaymentInfo, f: CustomerField, g: PaymentField, v: string)
    ensures f == Phone || f == Country ==> IsStepValid(step, WithCustomerValue(c, f, v), p) == IsStepValid(step, c, p)
    ensures step != 1 ==> IsStepValid(step, WithCustomerValue(c, f, v), p) == IsStepValid(step, c, p)
    ensures step != 2 ==> IsStepValid(step, c, WithPaymentValue(p, g, v)) == IsStepValid(step, c, p)
  {
  }

  /** The fresh form cannot leave the shipping step. */
  lemma InitialStepInvalid()
    ensures !IsStepValid(1, InitialCustomerInfo, InitialPaymentInfo)
    ensures !IsStepValid(2, InitialCustomerInfo, InitialPaymentInfo)
  {
  }

  // ---------------------------------------------------------------------
  // Step navigation

  /** Continue: offered below step 3 and enabled only when the current step
      is valid; it moves one step forward. */
  function StepAfterContinue(step: int, valid: bool): (r: int)
    ensures r == step + 1 <==> step < 3 && valid
    ensures r == step || r == step + 1
    ensures 1 <= step <= 3 ==> 1 <= r <= 3
  {
    if step < 3 && valid then step + 1 else step
  }

  /** Previous: offered above step 1, with no validation; one step back. */
  function StepAfterPrevious(step: int): (r: int)
    ensures r == step - 1 <==> step > 1
    ensures r == step || r == step - 1
    ensures 1 <= step <= 3 ==> 1 <= r <= 3
  {
    if step > 1 then step - 1 else step
  }

  // ---------------------------------------------------------------------
  // Order totals

  const FreeShippingThreshold: real := 50.0
  const FlatShippingFee: real := 9.99
  const TaxRate: real := 0.08

  /** The sum of price times quantity over the cart. */
  function Subtotal(items: seq<CartItem>): real {
    if items == [] then 0.0 else items[0].price * items[0].quantity as real + Subtotal(items[1..])
  }

  /** Shipping is free strictly above the threshold, the flat fee otherwise. */
  function Shipping(subtotal: real): (r: real)
    ensures r == 0.0 <==> subtotal > FreeShippingThreshold
    ensures r == 0.0 || r == FlatShippingFee
  {
    if subtotal > FreeShippingThreshold then 0.0 else FlatShippingFee
  }

  datatype OrderSummary = OrderSummary(subtotal: real, shipping: real, tax: real, total: real)

  /** The order summary shown beside the form and on the confirmation. */
  function Summary(items: seq<CartItem>): (s: OrderSummary)
    ensures s.subtotal == Subtotal(items)
    ensures s.shipping == 0.0 <==> s.subtotal > FreeShippingThreshold
    ensures s.shipping == 0.0 || s.shipping == FlatShippingFee
    ensures s.tax == s.subtotal * TaxRate
    ensures s.total == s.subtotal + s.shipping + s.tax
    ensures s.total == s.subtotal * (1.0 + TaxRate) + s.shipping
  {
    var subtotal := Subtotal(items);
    var shipping := Shipping(subtotal);
    var tax := subtotal * TaxRate;
    OrderSummary(subtotal, shipping, tax, subtotal + shipping + tax)
  }

  lemma {:induction false} SubtotalAppend(a: seq<CartItem>, b: seq<CartItem>)
    ensures Subtotal(a + b) == Subtotal(a) + Subtotal(b)
  {
    if a != [] {
      assert (a + b)[1..] == a[1..] + b;
      SubtotalAppend(a[1..], b);
    } else {
      assert a + b == b;
    }
  }

  /** With non-negative prices and quantities the subtotal is non-negative. */
  lemma {:induction false} SubtotalNonNegative(items: seq<CartItem>)
    requires forall i :: 0 <= i < |items| ==> items[i].price >= 0.0 && items[i].quantity >= 0
    ensures Subtotal(items) >= 0.0
  {
    if items != [] {
      SubtotalNonNegative(items[1..]);
    }
  }

  /** An empty cart still pays the flat fee: the summary is 0 / 9.99 / 0 / 9.99. */
  lemma EmptyCartSummary()
    ensures Summary([]) == OrderSummary(0.0, FlatShippingFee, 0.0, FlatShippingFee)
  {
  }

  /** A subtotal of exactly 50 is not above the threshold and pays the fee. */
  lemma ThresholdIsStrict()
    ensures Shipping(50.0) == 9.99
    ensures forall s :: s > 50.0 ==> Shipping(s) == 0.0
  {
  }

  /** Two lines of 10 x 2 and 25 x 1: 45 + 9.99 + 3.60 = 58.59. */
  lemma SummaryBelowThreshold(a: CartItem, b: CartItem)
    requires a.price == 10.0 && a.quantity == 2 && b.price == 25.0 && b.quantity == 1
    ensures Summary([a, b]) == OrderSummary(45.0, 9.99, 3.6, 58.59)
  {
    assert [a, b][1..] == [b] && [b][1..] == [];
    assert Subtotal([b]) == 25.0;
    assert Subtotal([a, b]) == 45.0;
  }

  /** One line of 40 x 2: 80 + free shipping + 6.40 = 86.40. */
  lemma SummaryAboveThreshold(a: CartItem)
    requires a.price == 40.0 && a.quantity == 2
    ensures Summary([a]) == OrderSummary(80.0, 0.0, 6.4, 86.4)
  {
    assert [a][1..] == [];
    assert Subtotal([a]) == 80.0;
  }

  // ---------------------------------------------------------------------
  // The checkout page's state

  class CheckoutPage {
    const cartItems: seq<CartItem>
    var currentStep: int
    var customerInfo: CustomerInfo
    var paymentInfo: PaymentInfo
    var isProcessing: bool
    var orderPlaced: bool
    /** Whether the second delay has elapsed and `onOrderComplete` was called. */
    var orderCompleteSignalled: bool

    ghost predicate Valid()
      reads this
    {
      && 1 <= currentStep <= 3
      && !(isProcessing && orderPlaced)
      && (orderCompleteSignalled ==> orderPlaced)
      && (!orderPlaced ==> StepsBeforeValid())
    }

    /** Every step before the current one was passed with a valid form (the
        only way forward is an enabled Continue, and a step's inputs are
        shown only on that step). */
    ghost predicate StepsBeforeValid()
      reads this
    {
      && (currentStep >= 2 ==> IsStepValid(1, customerInfo, paymentInfo))
      && (currentStep == 3 ==> IsStepValid(2, customerInfo, paymentInfo))
    }

    /** The step form is shown until the order is placed; afterwards the
        confirmation replaces it, with all its controls. */
    predicate FormShown()
      reads this
    {
      !orderPlaced
    }

    predicate ContinueEnabled()
      reads this
    {
      FormShown() && currentStep < 3 && IsStepValid(currentStep, customerInfo, paymentInfo)
    }

    predicate PreviousShown()
      reads this
    {
      FormShown() && currentStep > 1
    }

    predicate PlaceOrderEnabled()
      reads this
    {
      FormShown() && currentStep == 3 && !isProcessing
    }

    /** Step 1 renders an input for every customer field except country. */
    predicate CustomerInputShown(field: CustomerField)
      reads this
    {
      FormShown() && currentStep == 1 && field != Country
    }

    /** Step 2 renders the four payment inputs. */
    predicate PaymentInputsShown()
      reads this
    {
      FormShown() && currentStep == 2
    }

    /** The summary panel beside the form, and the total on the confirmation. */
    function OrderSummaryShown(): (s: OrderSummary)
      ensures s.subtotal == Subtotal(cartItems)
      ensures s.shipping == 0.0 <==> s.subtotal > FreeShippingThreshold
      ensures s.shipping == 0.0 || s.shipping == FlatShippingFee
      ensures s.tax == s.subtotal * TaxRate
      ensures s.total == s.subtotal + s.shipping + s.tax
    {
      Summary(cartItems)
    }

    constructor (cartItems: seq<CartItem>)
      ensures Valid()
      ensures this.cartItems == cartItems
      ensures currentStep == 1
      ensures customerInfo == InitialCustomerInfo && paymentInfo == InitialPaymentInfo
      ensures !isProcessing && !orderPlaced && !orderCompleteSignalled
      ensures !ContinueEnabled()
    {
      this.cartItems := cartItems;
      currentStep := 1;
      customerInfo := InitialCustomerInfo;
      paymentInfo := InitialPaymentInfo;
      isProcessing := false;
      orderPlaced := false;
      orderCompleteSignalled := false;
    }

    method ChangeCustomerInfo(field: CustomerField, value: string)
      requires Valid()
      modifies this
      ensures Valid()
      ensures customerInfo == if old(CustomerInputShown(field)) then WithCustomerValue(old(customerInfo), field, value) else old(customerInfo)
      ensures paymentInfo == old(paymentInfo) && currentStep == old(currentStep)
      ensures isProcessing == old(isProcessing) && orderPlaced == old(orderPlaced)
      ensures orderCompleteSignalled == old(orderCompleteSignalled)
    {
      if CustomerInputShown(field) {
        customerInfo := WithCustomerValue(customerInfo, field, value);
      }
    }

    method ChangePaymentInfo(field: PaymentField, value: string)
      requires Valid()
      modifies this
      ensures Valid()
      ensures paymentInfo == if old(PaymentInputsShown()) then WithPaymentValue(old(paymentInfo), field, value) else old(paymentInfo)
      ensures customerInfo == old(customerInfo) && currentStep == old(currentStep)
      ensures isProcessing == old(isProcessing) && orderPlaced == old(orderPlaced)
      ensures orderCompleteSignalled == old(orderCompleteSignalled)
    {
      if PaymentInputsShown() {
        paymentInfo := WithPaymentValue(paymentInfo, field, value);
      }
    }

    /** The Continue button; a click while it is hidden or disabled does nothing. */
    method Continue()
      requires Valid()
      modifies this
      ensures Valid()
      ensures currentStep == if old(ContinueEnabled()) then old(currentStep) + 1 else old(currentStep)
      ensures customerInfo == old(customerInfo) && paymentInfo == old(paymentInfo)
      ensures isProcessing == old(isProcessing) && orderPlaced == old(orderPlaced)
      ensures orderCompleteSignalled == old(orderCompleteSignalled)
    {
      if FormShown() {
        currentStep := StepAfterContinue(currentStep, IsStepValid(currentStep, customerInfo, paymentInfo));
      }
    }

    /** The Previous button; it stays available while the order is processing. */
    method Previous()
      requires Valid()
      modifies this
      ensures Valid()
      ensures currentStep == if old(PreviousShown()) then old(currentStep) - 1 else old(currentStep)
      ensures customerInfo == old(customerInfo) && paymentInfo == old(paymentInfo)
      ensures isProcessing == old(isProcessing) && orderPlaced == old(orderPlaced)
      ensures orderCompleteSignalled == old(orderCompleteSignalled)
    {
      if FormShown() {
        currentStep := StepAfterPrevious(currentStep);
      }
    }

    /** Place Order: offered at step 3 and disabled while processing; it
        starts processing (and the first delay). */
    method PlaceOrder()
      requires Valid()
      modifies this
      ensures Valid()
      ensures isProcessing == (old(isProcessing) || old(PlaceOrderEnabled()))
      ensures isProcessing && !old(isProcessing) ==>
                IsStepValid(1, customerInfo, paymentInfo) && IsStepValid(2, customerInfo, paymentInfo)
      ensures currentStep == old(currentStep) && orderPlaced == old(orderPlaced)
      ensures customerInfo == old(customerInfo) && paymentInfo == old(paymentInfo)
      ensures orderCompleteSignalled == old(orderCompleteSignalled)
    {
      if PlaceOrderEnabled() {
        isProcessing := true;
      }
    }

    /** The first delay elapses: processing ends and the order is placed. */
    method ProcessingDelayElapsed()
      requires Valid() && isProcessing
      modifies this
      ensures Valid()
      ensures !isProcessing && orderPlaced && !FormShown()
      ensures currentStep == old(currentStep) && orderCompleteSignalled == old(orderCompleteSignalled)
      ensures customerInfo == old(customerInfo) && paymentInfo == old(paymentInfo)
    {
      isProcessing := false;
      orderPlaced := true;
    }

    /** The second delay elapses: `onOrderComplete` is called. */
    method ConfirmationDelayElapsed()
      requires Valid() && orderPlaced && !orderCompleteSignalled
      modifies this
      ensures Valid()
      ensures orderCompleteSignalled
      ensures currentStep == old(currentStep) && isProcessing == old(isProcessing) && orderPlaced == old(orderPlaced)
      ensures customerInfo == old(customerInfo) && paymentInfo == old(paymentInfo)
    {
      orderCompleteSignalled := true;
    }
  }
}
