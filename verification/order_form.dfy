/**
 * The customer's order form (frontend/src/components/OrderForm.tsx): its state, the
 * price it shows, the checks `handleSubmit` runs before sending anything, the order
 * payload it sends, and what the reply does to the form.
 */
module OrderForm {
  import opened Text
  import Browser

  // ---------------------------------------------------------------- pricing

  /** Price of one flask, in whole taka. */
  const UnitPrice: int := 1299
  /** Delivery is free. */
  const DeliveryFee: int := 0

  /** The "subtotal" line of the summary. */
  function Subtotal(quantity: int): int {
    UnitPrice * quantity
  }

  /** `total`: what the summary, the submit button and the payload show. */
  function Total(quantity: int): int {
    Subtotal(quantity) + DeliveryFee
  }

  /** One flask costs the unit price, three cost 3897, and since delivery is free the
      total always equals the subtotal. */
  lemma TotalFacts(quantity: int)
    ensures Total(1) == 1299 && Total(3) == 3897
    ensures Total(quantity) == Subtotal(quantity)
    ensures Total(quantity + 1) == Total(quantity) + UnitPrice
  {
  }

  /** More flasks never cost less: total and subtotal are monotone in the quantity. */
  lemma TotalMonotone(q1: int, q2: int)
    requires q1 <= q2
    ensures Subtotal(q1) <= Subtotal(q2)
    ensures Total(q1) <= Total(q2)
  {
  }

  // ---------------------------------------------------------------- form state

  /** `formData` together with the `isSubmitting` and `orderPlaced` flags. */
  datatype Form = Form(
    name: string,
    phone: string,
    address: string,
    quantity: int,
    paymentMethod: string,
    isSubmitting: bool,
    orderPlaced: bool)

  /** The state the form is mounted with. */
  const Initial: Form := Form("", "", "", 1, "cod", false, false)

  /** The two radio buttons of the payment group. */
  datatype PaymentChoice = CashOnDelivery | MobileWallet {
    /** The radio item's `value`. */
    function Value(): string {
      match this
      case CashOnDelivery => "cod"
      case MobileWallet => "bkash"
    }
  }

  /** The shape every form state reachable through the user interface has. */
  predicate Consistent(f: Form) {
    f.quantity >= 1 && f.paymentMethod in {"cod", "bkash"}
  }

  /** The "-" button: one fewer flask, but never fewer than one. */
  function Decrease(f: Form): (g: Form)
    ensures g.quantity >= 1
    ensures f.quantity > 1 ==> g.quantity == f.quantity - 1
    ensures f.quantity <= 1 ==> g.quantity == 1
    ensures g == f.(quantity := g.quantity)
  {
    f.(quantity := if 1 < f.quantity - 1 then f.quantity - 1 else 1)
  }

  /** The "+" button: one more flask. */
  function Increase(f: Form): (g: Form)
    ensures g.quantity > f.quantity
    ensures Total(g.quantity) == Total(f.quantity) + UnitPrice
    ensures g == f.(quantity := g.quantity)
  {
    f.(quantity := f.quantity + 1)
  }

  /** Choosing a payment radio button. */
  function ChoosePayment(f: Form, choice: PaymentChoice): (g: Form)
    ensures g.paymentMethod in {"cod", "bkash"}
    ensures g.paymentMethod == "cod" <==> choice == CashOnDelivery
    ensures g == f.(paymentMethod := g.paymentMethod)
  {
    f.(paymentMethod := choice.Value())
  }

  // ---------------------------------------------------------------- validation

  /** Why `handleSubmit` stopped before sending: a field left empty, or a phone number
      that is not a Bangladeshi mobile number. Each shows an error toast. */
  datatype Rejection = MissingField | InvalidPhone

  datatype Check = Pass | Fail(reason: Rejection)

  /** A one-character class of a regular expression. */
  datatype CharClass = Exactly(c: char) | Between(lo: char, hi: char)

  predicate InClass(c: char, k: CharClass) {
    match k
    case Exactly(d) => c == d
    case Between(lo, hi) => lo <= c <= hi
  }

  /** The regular expression `^01[3-9]\d{8}$`, one class per character it matches. */
  const MobilePattern: seq<CharClass> :=
    [Exactly('0'), Exactly('1'), Between('3', '9'),
     Between('0', '9'), Between('0', '9'), Between('0', '9'), Between('0', '9'),
     Between('0', '9'), Between('0', '9'), Between('0', '9'), Between('0', '9')]

  /** `t` matches an anchored pattern made of single-character classes. */
  predicate FullMatch(t: string, p: seq<CharClass>) {
    |t| == |p| && forall i :: 0 <= i < |t| ==> InClass(t[i], p[i])
  }

  /** A Bangladeshi mobile number written without spaces: eleven ASCII digits that
      begin with "01" followed by a digit from 3 to 9. */
  predicate IsMobileNumber(t: string) {
    && |t| == 11
    && t[0] == '0' && t[1] == '1' && '3' <= t[2] <= '9'
    && forall i :: 2 <= i < |t| ==> IsDigit(t[i])
  }

  /** The phone test of `handleSubmit`: the pattern applied to the phone with all
      white space removed. It accepts exactly the mobile numbers, wherever spaces
      were typed. */
  function PhoneAccepted(phone: string): (ok: bool)
    ensures ok <==> IsMobileNumber(StripWhitespace(phone))
  {
    MobilePatternMeaning(StripWhitespace(phone));
    FullMatch(StripWhitespace(phone), MobilePattern)
  }

  /** The pattern, read class by class, says the same as `IsMobileNumber`. */
  lemma MobilePatternMeaning(t: string)
    ensures FullMatch(t, MobilePattern) <==> IsMobileNumber(t)
  {
    assert forall i :: 3 <= i < |MobilePattern| ==> MobilePattern[i] == Between('0', '9');
  }

  // The example lemmas below take the phone as a parameter fixed by `requires`: stated
  // on a literal directly, the verifier unrolls `StripWhitespace` on it without end.

  /** "01712345678" is a mobile number. */
  lemma PlainNumberAccepted(phone: string)
    requires phone == "01712345678"
    ensures PhoneAccepted(phone)
  {
    assert forall i :: 0 <= i < |phone| ==> IsDigit(phone[i]);
    DigitsKeptByStrip(phone);
  }

  /** A third digit of 2 is refused: "01212345678". */
  lemma ThirdDigitTwoRejected(phone: string)
    requires phone == "01212345678"
    ensures !PhoneAccepted(phone)
  {
    assert forall i :: 0 <= i < |phone| ==> IsDigit(phone[i]);
    DigitsKeptByStrip(phone);
  }

  /** Ten digits are refused: "0171234567". */
  lemma TenDigitsRejected(phone: string)
    requires phone == "0171234567"
    ensures !PhoneAccepted(phone)
  {
    assert forall i :: 0 <= i < |phone| ==> IsDigit(phone[i]);
    DigitsKeptByStrip(phone);
  }

  /** White space typed between the groups of digits does not matter: a number
      accepted unspaced is accepted with any blank gaps inserted. */
  lemma GapsIgnored(a: string, gap1: string, b: string, gap2: string, c: string)
    requires forall i :: 0 <= i < |a| ==> !IsWhitespace(a[i])
    requires forall i :: 0 <= i < |b| ==> !IsWhitespace(b[i])
    requires forall i :: 0 <= i < |c| ==> !IsWhitespace(c[i])
    requires IsBlank(gap1) && IsBlank(gap2)
    ensures PhoneAccepted(a + gap1 + b + gap2 + c) == PhoneAccepted(a + b + c)
  {
    StripDropsGap(a + gap1 + b, gap2, c);
    StripDropsGap(a, gap1, b);
    StripAppend(a + b, c);
    StripAppend(a, b);
  }

  /** The number may be typed with spaces: "017 1234 5678" is accepted. */
  lemma SpacedNumberAccepted(a: string, b: string, c: string)
    requires a == "017" && b == "1234" && c == "5678"
    ensures PhoneAccepted(a + " " + b + " " + c)
  {
    assert forall i :: 0 <= i < |a| ==> IsDigit(a[i]);
    assert forall i :: 0 <= i < |b| ==> IsDigit(b[i]);
    assert forall i :: 0 <= i < |c| ==> IsDigit(c[i]);
    DigitsAreVisible(a);
    DigitsAreVisible(b);
    DigitsAreVisible(c);
    GapsIgnored(a, " ", b, " ", c);
    PlainNumberAccepted(a + b + c);
  }

  /** The checks of `handleSubmit`, in order: first that no field trims to nothing,
      then the phone pattern. Nothing else (colour, quantity) is checked. */
  function Validate(f: Form): (c: Check)
    ensures c == Fail(MissingField) <==> IsBlank(f.name) || IsBlank(f.phone) || IsBlank(f.address)
    ensures c == Fail(InvalidPhone) <==>
      !IsBlank(f.name) && !IsBlank(f.phone) && !IsBlank(f.address) && !PhoneAccepted(f.phone)
    ensures c == Pass <==>
      !IsBlank(f.name) && !IsBlank(f.address) && PhoneAccepted(f.phone)
  {
    if Trim(f.name) == [] || Trim(f.phone) == [] || Trim(f.address) == [] then
      Fail(MissingField)
    else if !PhoneAccepted(f.phone) then
      Fail(InvalidPhone)
    else
      Pass
  }

  // ---------------------------------------------------------------- submission

  /** The JSON body of `POST /orders`. */
  datatype Payload = Payload(
    customerName: string,
    phone: string,
    address: string,
    quantity: int,
    color: string,
    paymentMethod: string,
    totalAmount: int,
    status: string)

  /** What pressing "confirm order" does: either stop with a reason, leaving the form
      as it was, or mark the form as submitting and send a payload. */
  datatype Submission = Blocked(reason: Rejection) | Sent(form: Form, payload: Payload)

  /** The synchronous part of `handleSubmit`, up to the request. */
  function BeginSubmit(f: Form, selectedColor: string): (s: Submission)
    ensures s.Blocked? <==> Validate(f).Fail?
    ensures s.Blocked? ==> s.reason == Validate(f).reason
    ensures s.Sent? ==> s.form == f.(isSubmitting := true)
    ensures s.Sent? ==>
      && s.payload.customerName == Trim(f.name) && s.payload.customerName != []
      && s.payload.phone == Trim(f.phone) && PhoneAccepted(s.payload.phone)
      && s.payload.address == Trim(f.address) && s.payload.address != []
      && s.payload.quantity == f.quantity
      && s.payload.color == selectedColor
      && s.payload.paymentMethod == f.paymentMethod
      && s.payload.totalAmount == UnitPrice * f.quantity + DeliveryFee
      && s.payload.status == "pending"
  {
    match Validate(f)
    case Fail(reason) => Blocked(reason)
    case Pass =>
      PhoneTrimKeepsDigits(f.phone);
      Sent(f.(isSubmitting := true),
           Payload(Trim(f.name), Trim(f.phone), Trim(f.address), f.quantity, selectedColor,
                   f.paymentMethod, Total(f.quantity), "pending"))
  }

  /** Trimming does not change which characters remain after all white space is
      removed, so the trimmed phone that is sent passes the same pattern. */
  lemma PhoneTrimKeepsDigits(phone: string)
    ensures StripWhitespace(Trim(phone)) == StripWhitespace(phone)
    ensures PhoneAccepted(Trim(phone)) == PhoneAccepted(phone)
  {
    StripIgnoresTrim(phone);
  }

  /** The spaces a customer types inside the number reach the order as typed; only
      the surrounding white space is trimmed: " 017 1234 5678 " is sent as
      "017 1234 5678". */
  lemma PayloadKeepsInteriorSpaces(f: Form, color: string, a: string, b: string, c: string)
    requires a == "017" && b == "1234" && c == "5678"
    requires !IsBlank(f.name) && !IsBlank(f.address)
    requires f.phone == " " + (a + " " + b + " " + c) + " "
    ensures BeginSubmit(f, color).Sent?
    ensures BeginSubmit(f, color).payload.phone == a + " " + b + " " + c
  {
    var inner := a + " " + b + " " + c;
    assert inner[0] == '0' && inner[|inner| - 1] == '8';
    TrimPadded(" ", inner, " ");
    SpacedNumberAccepted(a, b, c);
    PhoneTrimKeepsDigits(f.phone);
  }

  /** How the `POST /orders` request ended, as far as the form can tell. */
  datatype Reply = Responded(status: int) | Fault {
    /** `response.ok`, with a body `response.json()` could read. */
    predicate Succeeded() {
      Responded? && Browser.IsOk(status)
    }
  }

  /** The asynchronous end of `handleSubmit`: the order counts as placed only when the
      response succeeded, and whatever happened the form is no longer submitting. */
  function FinishSubmit(f: Form, reply: Reply): (g: Form)
    ensures !g.isSubmitting
    ensures g.orderPlaced <==> f.orderPlaced || reply.Succeeded()
    ensures !f.orderPlaced && !reply.Succeeded() ==> g == f.(isSubmitting := false)
    ensures g == f.(isSubmitting := false, orderPlaced := g.orderPlaced)
  {
    f.(isSubmitting := false, orderPlaced := reply.Succeeded() || f.orderPlaced)
  }

  /** The "order again" button of the success screen: clears the fields, resets the
      quantity and payment method, and leaves the success screen. */
  function OrderAgain(f: Form): (g: Form)
    ensures !g.orderPlaced
    ensures g.name == [] && g.phone == [] && g.address == []
    ensures g.quantity == 1 && g.paymentMethod == "cod"
    ensures g.isSubmitting == f.isSubmitting
    ensures !f.isSubmitting ==> g == Initial
  {
    Form("", "", "", 1, "cod", f.isSubmitting, false)
  }

  // ---------------------------------------------------------------- interaction

  /** Everything the user or the network can do to the form. */
  datatype Event =
    | EditName(name: string)
    | EditPhone(phone: string)
    | EditAddress(address: string)
    | DecreaseQuantity
    | IncreaseQuantity
    | SelectPayment(choice: PaymentChoice)
    | Submit(color: string)
    | Complete(reply: Reply)
    | StartOver

  function Step(f: Form, e: Event): (g: Form)
    ensures Consistent(f) ==> Consistent(g)
  {
    match e
    case EditName(s) => f.(name := s)
    case EditPhone(s) => f.(phone := s)
    case EditAddress(s) => f.(address := s)
    case DecreaseQuantity => Decrease(f)
    case IncreaseQuantity => Increase(f)
    case SelectPayment(c) => ChoosePayment(f, c)
    case Submit(color) =>
      (match BeginSubmit(f, color)
       case Blocked(_) => f
       case Sent(g, _) => g)
    case Complete(reply) => FinishSubmit(f, reply)
    case StartOver => OrderAgain(f)
  }

  /** The form after a sequence of events. */
  function Run(f: Form, events: seq<Event>): Form
    decreases |events|
  {
    if events == [] then f else Run(Step(f, events[0]), events[1..])
  }

  /** No sequence of events breaks consistency. */
  lemma {:induction false} RunPreservesConsistent(f: Form, events: seq<Event>)
    requires Consistent(f)
    ensures Consistent(Run(f, events))
    decreases |events|
  {
    if events != [] {
      RunPreservesConsistent(Step(f, events[0]), events[1..]);
    }
  }

  /** Every form the user can reach orders at least one flask, costs at least the unit
      price, and pays by one of the two radio values. */
  lemma ReachableFormIsConsistent(events: seq<Event>)
    ensures Run(Initial, events).quantity >= 1
    ensures Total(Run(Initial, events).quantity) >= UnitPrice
    ensures Run(Initial, events).paymentMethod in {"cod", "bkash"}
  {
    RunPreservesConsistent(Initial, events);
  }

  /** A blocked submission changes nothing: the form never shows as submitting. */
  lemma BlockedSubmitChangesNothing(f: Form, color: string)
    requires Validate(f).Fail?
    ensures Step(f, Submit(color)) == f
  {
  }

  /** Running two or three events is stepping through them in order. */
  lemma RunShort(f: Form, a: Event, b: Event, c: Event)
    ensures Run(f, [a, b]) == Step(Step(f, a), b)
    ensures Run(f, [a, b, c]) == Step(Step(Step(f, a), b), c)
  {
    var f1 := Step(f, a);
    var f2 := Step(f1, b);
    assert [a, b][1..] == [b];
    assert Run(f, [a, b]) == Run(f1, [b]);
    assert Run(f1, [b]) == Run(f2, []);
    assert [a, b, c][1..] == [b, c];
    assert [b, c][1..] == [c];
    assert Run(f, [a, b, c]) == Run(f1, [b, c]);
    assert Run(f1, [b, c]) == Run(f2, [c]);
    assert Run(f2, [c]) == Run(Step(f2, c), []);
  }

  /** A successful reply marks the order as placed; "order again" then restores the
      initial form. */
  lemma CompleteThenStartOver(g: Form, reply: Reply)
    requires reply.Succeeded()
    ensures Step(g, Complete(reply)).orderPlaced
    ensures Step(Step(g, Complete(reply)), StartOver) == Initial
  {
    assert Step(g, Complete(reply)) == FinishSubmit(g, reply);
  }

  /** Submitting, receiving a successful reply and pressing "order again" ends in
      exactly the state the form was mounted with, whatever was typed before. */
  lemma StartOverAfterSuccess(f: Form, color: string, reply: Reply)
    requires reply.Succeeded()
    ensures Run(f, [Submit(color), Complete(reply)]).orderPlaced
    ensures Run(f, [Submit(color), Complete(reply), StartOver]) == Initial
  {
    RunShort(f, Submit(color), Complete(reply), StartOver);
    CompleteThenStartOver(Step(f, Submit(color)), reply);
  }
}
