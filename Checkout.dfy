/**
 * The donation checkout route (app/api/donate/checkout/route.ts): it
 * validates the amount, turns the request into the parameters of a Stripe
 * Checkout session, and answers with the session's URL. Stripe itself is a
 * parameter: the model records the parameters the route sends and takes
 * what Stripe answers as an input.
 */
module Checkout {
  import opened Wrappers
  import opened Text
  import opened Fetch

  /** `Number(amount)`: a finite number or NaN. `Number` can also give an
      infinity (`1e400`, `"Infinity"`), which this type leaves out. */
  datatype Numeric = NaN | Finite(value: real)

  datatype Donor = Donor(name: Option<string>, email: Option<string>)

  /** The JSON body, every field optional (`donor` absent or null is None). */
  datatype Body = Body(
    amount: Numeric,
    currency: Option<string>,
    frequency: Option<string>,
    donor: Option<Donor>,
    description: Option<string>)

  /** The request: a body `req.json()` parses, or one it (or the destructuring
      of a null body) throws on, with the error's message. */
  datatype Request = Malformed(error: Option<string>) | Json(body: Body)

  datatype Mode = Payment | Subscription

  /** The parameters the route passes to `stripe.checkout.sessions.create`. */
  datatype SessionParams = SessionParams(
    mode: Mode,
    currency: string,
    productName: string,
    unitAmount: int,
    monthly: bool,
    quantity: nat,
    customerEmail: Option<string>,
    donorName: string,
    frequency: string,
    successUrl: string,
    cancelUrl: string)

  /** What Stripe does with them: a session (whose `url` may be null), or an
      error with its message. */
  datatype StripeOutcome = Created(url: Option<string>) | Threw(error: Option<string>)

  datatype Reply = Url(url: Option<string>) | Message(message: string)
  datatype Response = Response(status: nat, reply: Reply)

  /** The session the route asked for, if any, and its answer. */
  datatype Handled = Handled(session: Option<SessionParams>, response: Response)

  const DefaultCurrency := "KES"
  const DefaultFrequency := "one_time"
  const DefaultProduct := "PCOF donation"
  const SuccessPath := "/donate/thank-you?session_id={CHECKOUT_SESSION_ID}"
  const CancelPath := "/donate?canceled=1"

  /** `!parsed || parsed <= 0` fails: NaN, zero and negatives are refused. */
  predicate ValidAmount(n: Numeric) {
    n.Finite? && n.value > 0.0
  }

  /** `Math.round(parsed * 100)`: the nearest whole number of cents, halves
      rounding up. */
  function UnitAmount(x: real): (r: int)
    ensures x * 100.0 - 0.5 < r as real <= x * 100.0 + 0.5
    ensures x >= 0.0 ==> r >= 0
  {
    (x * 100.0 + 0.5).Floor
  }

  /** A whole amount in the main unit becomes exactly a hundred cents each. */
  lemma WholeAmountInCents(n: int)
    ensures UnitAmount(n as real) == 100 * n
  {
    var r := UnitAmount(n as real);
    assert (100 * n) as real - 0.5 < r as real <= (100 * n) as real + 0.5;
  }

  /** Amounts of at least half a cent ask Stripe for at least one cent;
      smaller positive amounts pass the check and ask for zero. */
  lemma SmallAmounts(x: real)
    ensures x >= 0.005 ==> UnitAmount(x) >= 1
    ensures 0.0 < x < 0.005 ==> UnitAmount(x) == 0
  {
  }

  /** The session parameters for a body whose amount passed the check. */
  function Params(b: Body, baseUrl: Option<string>): (p: SessionParams)
    requires ValidAmount(b.amount)
    ensures (p.mode == Subscription) == (b.frequency == Some("monthly")) == p.monthly
    ensures p.currency == Lower(b.currency.GetOr(DefaultCurrency))
    ensures p.productName != ""
    ensures p.productName == OrElse(b.description, DefaultProduct)
    ensures p.unitAmount == UnitAmount(b.amount.value) && p.unitAmount >= 0
    ensures p.quantity == 1
    ensures b.donor.Some? ==> p.customerEmail == b.donor.value.email
    ensures b.donor.None? ==> p.customerEmail.None?
    ensures b.donor.Some? ==> p.donorName == b.donor.value.name.GetOr("")
    ensures b.donor.None? ==> p.donorName == ""
    ensures p.frequency == b.frequency.GetOr(DefaultFrequency)
    ensures p.successUrl == baseUrl.GetOr("") + SuccessPath
    ensures p.cancelUrl == baseUrl.GetOr("") + CancelPath
  {
    var monthly := b.frequency == Some("monthly");
    var donor := b.donor.GetOr(Donor(None, None));
    SessionParams(
      if monthly then Subscription else Payment,
      Lower(b.currency.GetOr(DefaultCurrency)),
      OrElse(b.description, DefaultProduct),
      UnitAmount(b.amount.value),
      monthly,
      1,
      donor.email,
      donor.name.GetOr(""),
      b.frequency.GetOr(DefaultFrequency),
      baseUrl.GetOr("") + SuccessPath,
      baseUrl.GetOr("") + CancelPath)
  }

  /** `POST`: a malformed body is a 500 with the parse error's message; an
      invalid amount a 400 'Invalid amount' and no session; otherwise a
      session is requested and the answer is its URL, or a 500 with Stripe's
      error message ('Server error' when it has none). */
  function Post(req: Request, baseUrl: Option<string>, stripe: StripeOutcome): (r: Handled)
    ensures r.session.Some? <==> req.Json? && ValidAmount(req.body.amount)
    ensures r.session.Some? ==> r.session.value == Params(req.body, baseUrl)
    ensures r.response.status == 200 <==> r.session.Some? && stripe.Created?
    ensures r.response.status == 200 ==> r.response.reply == Url(stripe.url)
    ensures r.response.status == 400 <==> req.Json? && !ValidAmount(req.body.amount)
    ensures r.response.status == 400 ==> r.response.reply == Message("Invalid amount")
    ensures r.response.status in {200, 400, 500}
    ensures r.response.status == 500 ==>
      r.response.reply.Message? && r.response.reply.message != ""
      && (req.Malformed? ==> r.response.reply.message == OrElse(req.error, "Server error"))
      && (req.Json? ==> r.response.reply.message == OrElse(stripe.error, "Server error"))
  {
    match req
    case Malformed(e) => Handled(None, Response(500, Message(OrElse(e, "Server error"))))
    case Json(b) =>
      if !ValidAmount(b.amount) then Handled(None, Response(400, Message("Invalid amount")))
      else
        var p := Params(b, baseUrl);
        match stripe
        case Created(url) => Handled(Some(p), Response(200, Url(url)))
        case Threw(e) => Handled(Some(p), Response(500, Message(OrElse(e, "Server error"))))
  }
}
