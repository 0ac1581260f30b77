/**
 * The donation form (components/DonateForm.tsx): it checks the amount and
 * the email, posts the donation to the checkout route, and either redirects
 * to the checkout page or shows an error.
 */
module DonateForm {
  import opened Wrappers
  import opened Text
  import opened Fetch
  import Checkout

  /** The amount field: a number, or `''` when the input is cleared. */
  datatype AmountInput = Blank | Num(value: real)

  datatype Frequency = OneTime | Monthly

  /** The JSON body the form posts. */
  datatype DonationRequest = DonationRequest(
    amount: real,
    currency: string,
    frequency: Frequency,
    donorName: string,
    donorEmail: string,
    description: string)

  const InvalidAmount := "Please enter a valid amount."
  const InvalidEmail := "Please enter a valid email address."
  const NotCreated := "Failed to create checkout session"
  const NoUrl := "No checkout URL returned."
  const Unknown := "An error occurred"

  /** `typeof amount === 'number' ? amount : Number(amount)`, where
      `Number('')` is 0. */
  function AmountValue(a: AmountInput): (r: real)
    ensures a.Blank? ==> r == 0.0
  {
    if a.Num? then a.value else 0.0
  }

  function FrequencyName(f: Frequency): (r: string)
    ensures r == "monthly" <==> f == Monthly
  {
    if f == Monthly then "monthly" else "one_time"
  }

  /** The checks before posting: the first failing one's message, or None.
      The email check is the regular expression `^\S+@\S+\.\S+$`. */
  function Validate(amount: AmountInput, email: string): (r: Option<string>)
    ensures r.None? <==> AmountValue(amount) > 0.0 && MatchesEmailRegex(email)
    ensures AmountValue(amount) <= 0.0 ==> r == Some(InvalidAmount)
    ensures AmountValue(amount) > 0.0 && !MatchesEmailRegex(email) ==> r == Some(InvalidEmail)
  {
    if AmountValue(amount) <= 0.0 then Some(InvalidAmount)
    else if email == "" || !EmailOk(email) then Some(InvalidEmail)
    else None
  }

  /** The body posted for a valid form: the description names the donor, or
      the email when the name is empty. */
  function RequestFor(amount: real, currency: string, frequency: Frequency,
                      name: string, email: string): (r: DonationRequest)
    ensures r.amount == amount && r.currency == currency && r.frequency == frequency
    ensures r.donorName == name && r.donorEmail == email
    ensures r.description == "Donation by " + (if name != "" then name else email)
  {
    DonationRequest(amount, currency, frequency, name, email,
                    "Donation by " + (if name != "" then name else email))
  }

  /** Where the answer leaves the form. */
  datatype Settled = Redirect(url: string) | ShowError(message: string)

  /** After the post: a URL in the reply redirects there; no URL, a refusal,
      unreadable JSON or a network failure shows an error, never an empty
      one. */
  function SettleWith(o: Outcome): (r: Settled)
    ensures r.Redirect? <==>
      o.Resolved? && o.ok && o.payload.Parsed? && o.payload.url.Some? && o.payload.url.value != ""
    ensures r.Redirect? ==> r.url == o.payload.url.value
    ensures r.ShowError? ==> r.message != ""
    ensures o.Resolved? && o.ok && o.payload.Parsed? && r.ShowError? ==> r.message == NoUrl
    ensures o.Resolved? && !o.ok && o.payload.Parsed? ==> r == ShowError(OrElse(o.payload.message, NotCreated))
    ensures o.Rejected? ==> r == ShowError(OrElse(o.error, Unknown))
    ensures o.Resolved? && o.payload.Unparseable? ==> r == ShowError(OrElse(o.payload.error, Unknown))
  {
    match Caught(o, NotCreated)
    case Some(e) => ShowError(OrElse(e, Unknown))
    case None =>
      var url := o.payload.url;
      if url.Some? && url.value != "" then Redirect(url.value) else ShowError(NoUrl)
  }

  /** The form's state. */
  class DonationForm {
    const currency: string
    var amount: AmountInput
    var frequency: Frequency
    var name: string
    var email: string
    var processing: bool
    var error: Option<string>
    /** `window.location.href` once the form has redirected. */
    var location: Option<string>

    /** Defaults: KES, 1000, one-time, nothing typed. */
    constructor(currencyProp: Option<string>)
      ensures currency == currencyProp.GetOr("KES")
      ensures amount == Num(1000.0) && frequency == OneTime
      ensures name == "" && email == "" && !processing && error.None? && location.None?
    {
      currency := currencyProp.GetOr("KES");
      amount := Num(1000.0);
      frequency := OneTime;
      name := "";
      email := "";
      processing := false;
      error := None;
      location := None;
    }

    /** `onSubmit` up to the `await`: clear the error, validate, and on
        success mark the form as processing and hand back the body to post. */
    method Submit() returns (request: Option<DonationRequest>)
      modifies this`error, this`processing
      ensures error == Validate(amount, email)
      ensures request.Some? <==> error.None?
      ensures request.Some? ==>
        request.value == RequestFor(AmountValue(amount), currency, frequency, name, email)
        && processing
      ensures request.None? ==> processing == old(processing)
    {
      error := None;
      var v := Validate(amount, email);
      if v.Some? {
        error := v;
        request := None;
      } else {
        processing := true;
        request := Some(RequestFor(AmountValue(amount), currency, frequency, name, email));
      }
    }

    /** `onSubmit` after the `await`, including `finally`. */
    method Settle(o: Outcome)
      modifies this`error, this`processing, this`location
      ensures !processing
      ensures SettleWith(o).Redirect? ==> location == Some(SettleWith(o).url) && error == old(error)
      ensures SettleWith(o).ShowError? ==> error == Some(SettleWith(o).message) && location == old(location)
    {
      match SettleWith(o) {
        case Redirect(url) => location := Some(url);
        case ShowError(m) => error := Some(m);
      }
      processing := false;
    }
  }

  /** The form's body as the route reads it back from JSON. */
  function AsRouteBody(r: DonationRequest): (b: Checkout.Body)
    ensures b.amount == Checkout.Finite(r.amount)
    ensures b.description == Some(r.description)
  {
    Checkout.Body(
      Checkout.Finite(r.amount),
      Some(r.currency),
      Some(FrequencyName(r.frequency)),
      Some(Checkout.Donor(Some(r.donorName), Some(r.donorEmail))),
      Some(r.description))
  }

  /** Whatever the form sends passes the route's amount check: the route asks
      Stripe for a session in the form's currency, for the donor's email,
      named after the donor, and monthly exactly when the form says so. */
  lemma FormRequestsReachStripe(amount: AmountInput, currency: string, frequency: Frequency,
                                name: string, email: string, baseUrl: Option<string>,
                                stripe: Checkout.StripeOutcome)
    requires Validate(amount, email).None?
    ensures var req := RequestFor(AmountValue(amount), currency, frequency, name, email);
      var h := Checkout.Post(Checkout.Json(AsRouteBody(req)), baseUrl, stripe);
      && h.session.Some?
      && h.response.status != 400
      && h.session.value.currency == Lower(currency)
      && h.session.value.customerEmail == Some(email)
      && h.session.value.productName == req.description
      && h.session.value.donorName == name
      && (h.session.value.mode == Checkout.Subscription <==> frequency == Monthly)
      && h.session.value.unitAmount == Checkout.UnitAmount(AmountValue(amount))
  {
    var req := RequestFor(AmountValue(amount), currency, frequency, name, email);
    var b := AsRouteBody(req);
    assert Checkout.ValidAmount(b.amount);
    assert req.description != "";
    var p := Checkout.Params(b, baseUrl);
    assert p.productName == req.description;
  }
}
