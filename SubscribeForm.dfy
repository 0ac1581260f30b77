/**
 * The newsletter form (components/SubscribeForm.tsx). It posts the email
 * and reports success whenever the fetch resolves, whatever the response's
 * status.
 */
module SubscribeForm {
  import opened Wrappers
  import opened Fetch

  datatype SubscribeStatus = Idle | Sending | Subscribed | Failed

  /** Only a rejected fetch counts as a failure: the response is never read. */
  function StatusAfter(o: Outcome): (r: SubscribeStatus)
    ensures r == Failed <==> o.Rejected?
    ensures r == Subscribed <==> o.Resolved?
  {
    if o.Rejected? then Failed else Subscribed
  }

  /** A "not found" answer, for instance, still shows success. */
  lemma RefusalLooksLikeSuccess(p: Payload)
    ensures StatusAfter(Resolved(false, p)) == Subscribed
  {
  }

  class SubscribeFormState {
    var email: string
    var status: SubscribeStatus

    constructor()
      ensures email == "" && status == Idle
    {
      email := "";
      status := Idle;
    }

    function CanSubmit(): (r: bool)
      reads this
      ensures r <==> status != Sending
    {
      status != Sending
    }

    /** `submit` up to the `await`: an empty email does nothing at all. */
    method Submit() returns (request: Option<string>)
      modifies this`status
      ensures request.Some? <==> email != ""
      ensures request.Some? ==> request.value == email && status == Sending
      ensures request.None? ==> status == old(status)
    {
      if email == "" {
        request := None;
      } else {
        status := Sending;
        request := Some(email);
      }
    }

    /** `submit` after the `await`: success clears the email. */
    method Settle(o: Outcome)
      modifies this
      ensures status == StatusAfter(o)
      ensures status == Subscribed ==> email == ""
      ensures status == Failed ==> email == old(email)
    {
      status := StatusAfter(o);
      if status == Subscribed {
        email := "";
      }
    }
  }
}
