/**
 * The event registration form (components/RSVPForm.tsx): name and email are
 * required, the registration is posted to the event's RSVP route, and the
 * form shows the outcome.
 */
module RSVPForm {
  import opened Wrappers
  import opened Fetch

  datatype RsvpStatus = Idle | Sending | Confirmed | Failed

  datatype RsvpRequest = RsvpRequest(path: string, name: string, email: string)

  const Missing := "Please provide name and email."
  const Thanks := "Thanks — your registration is confirmed."
  const NotOk := "Failed"
  const CouldNot := "Could not register."

  /** `/api/events/${eventId}/rsvp`. */
  function RsvpPath(eventId: string): (r: string)
    ensures |r| == |eventId| + 17
    ensures r[..12] == "/api/events/"
    ensures r[12..12 + |eventId|] == eventId
    ensures r[12 + |eventId|..] == "/rsvp"
  {
    "/api/events/" + eventId + "/rsvp"
  }

  /** The status and message after the post: confirmed only when the
      response is ok and its JSON reads; the message is never empty. */
  function AfterPost(o: Outcome): (r: (RsvpStatus, string))
    ensures r.0 == Confirmed <==> o.Resolved? && o.ok && o.payload.Parsed?
    ensures r.0 == Confirmed || r.0 == Failed
    ensures r.0 == Confirmed ==> r.1 == Thanks
    ensures r.1 != ""
    ensures o.Resolved? && !o.ok && o.payload.Parsed? ==> r == (Failed, OrElse(o.payload.message, NotOk))
    ensures o.Rejected? ==> r == (Failed, OrElse(o.error, CouldNot))
    ensures o.Resolved? && o.payload.Unparseable? ==> r == (Failed, OrElse(o.payload.error, CouldNot))
  {
    match Caught(o, NotOk)
    case None => (Confirmed, Thanks)
    case Some(e) => (Failed, OrElse(e, CouldNot))
  }

  class RsvpForm {
    const eventId: string
    /** Shown to the user only; the form never checks it. */
    const capacity: Option<int>
    var name: string
    var email: string
    var status: RsvpStatus
    var message: string

    constructor(id: string, cap: Option<int>)
      ensures eventId == id && capacity == cap
      ensures name == "" && email == "" && status == Idle && message == ""
    {
      eventId := id;
      capacity := cap;
      name := "";
      email := "";
      status := Idle;
      message := "";
    }

    /** The submit button is disabled while a registration is in flight. */
    function CanSubmit(): (r: bool)
      reads this
      ensures r <==> status != Sending
    {
      status != Sending
    }

    /** `submit` up to the `await`: a missing name or email only sets the
        message and leaves the status as it was. */
    method Submit() returns (request: Option<RsvpRequest>)
      modifies this`status, this`message
      ensures request.Some? <==> old(name) != "" && old(email) != ""
      ensures request.None? ==> message == Missing && status == old(status)
      ensures request.Some? ==>
        request.value == RsvpRequest(RsvpPath(eventId), name, email)
        && status == Sending && message == old(message)
    {
      if email == "" || name == "" {
        message := Missing;
        request := None;
      } else {
        status := Sending;
        request := Some(RsvpRequest(RsvpPath(eventId), name, email));
      }
    }

    /** `submit` after the `await`: success clears name and email. */
    method Settle(o: Outcome)
      modifies this`status, this`message, this`name, this`email
      ensures (status, message) == AfterPost(o)
      ensures status == Confirmed ==> name == "" && email == ""
      ensures status == Failed ==> name == old(name) && email == old(email)
    {
      var r := AfterPost(o);
      status, message := r.0, r.1;
      if r.0 == Confirmed {
        name, email := "", "";
      }
    }
  }
}
