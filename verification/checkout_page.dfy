/** The checkout form: its validation rules, the order payload `onSubmit`
    builds, and what follows from the order's outcome. */
module CheckoutPage {
  import opened Js

  datatype CheckoutForm = CheckoutForm(
    street: string, city: string, zip: string, country: string,
    contactNumber: string, paymentMethod: string,
    cardHolderName: string, cardNumber: string,
    expireMonth: string, expireYear: string, cvc: string)

  const CreditCard: string := "Credit Card"

  /** The form's `initialValues`. */
  const InitialForm := CheckoutForm("", "", "", "Türkiye", "", CreditCard, "", "", "", "", "")

  datatype Field =
    | Street | City | Zip | ContactNumber | PaymentMethod
    | CardHolderName | CardNumber | ExpireMonth | ExpireYear | Cvc

  /** `\d` in a JavaScript regular expression: an ASCII digit. */
  predicate IsDigit(c: char) {
    '0' <= c <= '9'
  }

  /** `/^\d{n}$/` */
  predicate ExactlyDigits(s: string, n: nat) {
    |s| == n && forall i :: 0 <= i < |s| ==> IsDigit(s[i])
  }

  /** `/^(0[1-9]|1[0-2])$/` */
  predicate MonthPattern(s: string) {
    |s| == 2 && ((s[0] == '0' && '1' <= s[1] <= '9') || (s[0] == '1' && '0' <= s[1] <= '2'))
  }

  function DigitValue(c: char): int
    requires IsDigit(c)
  {
    c as int - '0' as int
  }

  /** The month pattern accepts exactly the two-digit strings whose value is
      a month, 1 to 12; "1" and "00" are refused. */
  lemma MonthPatternIsMonth(s: string)
    ensures MonthPattern(s) <==>
              ExactlyDigits(s, 2) && 1 <= 10 * DigitValue(s[0]) + DigitValue(s[1]) <= 12
  {
    if ExactlyDigits(s, 2) {
      var v := 10 * DigitValue(s[0]) + DigitValue(s[1]);
      if s[0] == '0' {
        assert v == DigitValue(s[1]);
      } else if s[0] == '1' {
        assert v == 10 + DigitValue(s[1]);
      } else {
        assert DigitValue(s[0]) >= 2;
        assert v >= 20;
      }
    }
  }

  /** Whether a field fails validation. `required` refuses only the empty
      string; the card fields are checked only for a credit-card payment. */
  predicate Invalid(f: CheckoutForm, field: Field) {
    var card := f.paymentMethod == CreditCard;
    match field
    case Street => f.street == ""
    case City => f.city == ""
    case Zip => f.zip == ""
    case ContactNumber => f.contactNumber == ""
    case PaymentMethod => f.paymentMethod == ""
    case CardHolderName => card && f.cardHolderName == ""
    case CardNumber => card && !ExactlyDigits(f.cardNumber, 16)
    case ExpireMonth => card && !MonthPattern(f.expireMonth)
    case ExpireYear => card && !ExactlyDigits(f.expireYear, 2)
    case Cvc => card && !ExactlyDigits(f.cvc, 3)
  }

  const AllFields: set<Field> :=
    {Street, City, Zip, ContactNumber, PaymentMethod, CardHolderName, CardNumber, ExpireMonth, ExpireYear, Cvc}

  const CardFields: set<Field> := {CardHolderName, CardNumber, ExpireMonth, ExpireYear, Cvc}

  /** The fields the validation schema reports. */
  function Errors(f: CheckoutForm): (r: set<Field>)
    ensures forall field :: field in r <==> Invalid(f, field)
  {
    forall field: Field ensures field in AllFields {
      EveryField(field);
    }
    set field | field in AllFields && Invalid(f, field)
  }

  lemma EveryField(field: Field)
    ensures field in AllFields
  {
    match field
    case Street => case City => case Zip => case ContactNumber => case PaymentMethod =>
    case CardHolderName => case CardNumber => case ExpireMonth => case ExpireYear => case Cvc =>
  }

  /** For any other payment method the card fields are never reported, so
      whatever they hold does not change the verdict. */
  lemma CardFieldsOnlyForCreditCard(f: CheckoutForm, g: CheckoutForm)
    requires f.paymentMethod != CreditCard
    requires g == f.(cardHolderName := g.cardHolderName, cardNumber := g.cardNumber,
                     expireMonth := g.expireMonth, expireYear := g.expireYear, cvc := g.cvc)
    ensures Errors(f) * CardFields == {}
    ensures Errors(f) == Errors(g)
  {
  }

  /** For a credit card, the number needs exactly 16 digits, the CVC 3, the
      year 2, and the month is a two-digit month. */
  lemma CreditCardRules(f: CheckoutForm)
    requires f.paymentMethod == CreditCard
    ensures CardNumber !in Errors(f) <==> ExactlyDigits(f.cardNumber, 16)
    ensures Cvc !in Errors(f) <==> ExactlyDigits(f.cvc, 3)
    ensures ExpireYear !in Errors(f) <==> ExactlyDigits(f.expireYear, 2)
    ensures ExpireMonth !in Errors(f) <==>
              ExactlyDigits(f.expireMonth, 2) && 1 <= 10 * DigitValue(f.expireMonth[0]) + DigitValue(f.expireMonth[1]) <= 12
  {
    MonthPatternIsMonth(f.expireMonth);
  }

  /** The untouched form reports every required field but the payment
      method. */
  lemma InitialFormErrors()
    ensures Errors(InitialForm) == AllFields - {PaymentMethod}
  {
  }

  datatype Address = Address(street: string, city: string, zip: string, country: string)

  datatype CardDetails = CardDetails(
    cardHolderName: string, cardNumber: string,
    expireMonth: string, expireYear: string, cvc: string)

  /** `orderData`; `cardDetails` is absent unless it was added. */
  datatype OrderData = OrderData(
    paymentMethod: string, address: Address, contactNumber: string,
    isGiftWrap: bool, cardDetails: Option<CardDetails>)

  /** How the awaited `createOrder` dispatch ends. */
  datatype OrderOutcome = OrderFulfilled | OrderRejected(payload: Val) | OrderThrew

  datatype Notice = LoginRequired | OrderCreated | OrderFailed(message: Val) | UnexpectedError

  datatype Effect =
    | Notify(notice: Notice)
    | NavigateToLogin(from: string)
    | CreateOrder(order: OrderData)
    | ClearServerCart

  /** The `orderData` built from the form: the payment method, the address,
      the contact number and the gift-wrap flag, and the card details exactly
      for a credit card. */
  function OrderFor(values: CheckoutForm, isGiftWrap: bool): (o: OrderData)
    ensures o.paymentMethod == values.paymentMethod
    ensures o.address == Address(values.street, values.city, values.zip, values.country)
    ensures o.contactNumber == values.contactNumber && o.isGiftWrap == isGiftWrap
    ensures o.cardDetails.Some? <==> values.paymentMethod == CreditCard
    ensures o.cardDetails.Some? ==>
              o.cardDetails.value == CardDetails(values.cardHolderName, values.cardNumber,
                                                 values.expireMonth, values.expireYear, values.cvc)
  {
    OrderData(values.paymentMethod, Address(values.street, values.city, values.zip, values.country),
              values.contactNumber, isGiftWrap,
              if values.paymentMethod == CreditCard
              then Some(CardDetails(values.cardHolderName, values.cardNumber, values.expireMonth, values.expireYear, values.cvc))
              else None)
  }

  /** `onSubmit`. Returns the effects in order and whether the success view
      was switched on: a guest is sent to log in; a signed-in user's order is
      created exactly once, followed by the success notice and the cart
      clearing, by the rejection message, or by the generic error. */
  method Submit(values: CheckoutForm, isLoggedIn: bool, isGiftWrap: bool, outcome: OrderOutcome)
    returns (effects: seq<Effect>, succeeded: bool)
    ensures !isLoggedIn ==> effects == [Notify(LoginRequired), NavigateToLogin("/checkout")] && !succeeded
    ensures isLoggedIn && outcome.OrderFulfilled? ==>
              effects == [CreateOrder(OrderFor(values, isGiftWrap)), Notify(OrderCreated), ClearServerCart]
    ensures isLoggedIn && outcome.OrderRejected? ==>
              effects == [CreateOrder(OrderFor(values, isGiftWrap)),
                          Notify(OrderFailed(Or(outcome.payload, Str("Sipariş oluşturulamadı"))))]
    ensures isLoggedIn && outcome.OrderThrew? ==>
              effects == [CreateOrder(OrderFor(values, isGiftWrap)), Notify(UnexpectedError)]
    ensures succeeded <==> isLoggedIn && outcome.OrderFulfilled?
    ensures ClearServerCart in effects <==> succeeded
  {
    if !isLoggedIn {
      effects := [Notify(LoginRequired), NavigateToLogin("/checkout")];
      succeeded := false;
      return;
    }
    var orderData := OrderData(
      values.paymentMethod,
      Address(values.street, values.city, values.zip, values.country),
      values.contactNumber, isGiftWrap, None);
    if values.paymentMethod == CreditCard {
      orderData := orderData.(cardDetails := Some(CardDetails(
        values.cardHolderName, values.cardNumber, values.expireMonth, values.expireYear, values.cvc)));
    }
    effects := [CreateOrder(orderData)];
    succeeded := false;
    match outcome
    case OrderFulfilled =>
      effects := effects + [Notify(OrderCreated), ClearServerCart];
      succeeded := true;
    case OrderRejected(payload) =>
      effects := effects + [Notify(OrderFailed(Or(payload, Str("Sipariş oluşturulamadı"))))];
    case OrderThrew =>
      effects := effects + [Notify(UnexpectedError)];
  }
}
