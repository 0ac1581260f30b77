/**
 * The contact form (components/ContactForm.tsx): required fields, an email
 * check, a hidden honeypot field that fakes success for bots, and the post
 * to `/api/contact`.
 */
module ContactForm {
  import opened Wrappers
  import opened Text
  import opened Fetch

  const Incomplete := "Please complete all required fields."
  const InvalidEmail := "Please provide a valid email address."
  const PretendThanks := "Thank you — we will be in touch."
  const Sent := "Thanks — your message has been sent."
  const NotSent := "Could not send message"
  const Unknown := "An error occurred"

  /** The `{ ok, message }` line under the form. */
  datatype Status = Status(ok: bool, message: string)

  datatype ContactRequest = ContactRequest(name: string, email: string, message: string)

  /** What the checks decide before anything is posted. */
  datatype Verdict = Refuse(message: string) | PretendSent | Send

  /** Each field must be non-blank after trimming; the email, untrimmed, must
      match `^\S+@\S+\.\S+$`; a filled honeypot then fakes success. */
  function Check(name: string, email: string, message: string, hp: string): (r: Verdict)
    ensures r == Refuse(Incomplete) <==> IsBlank(name) || IsBlank(email) || IsBlank(message)
  {
    if Trim(name) == "" || Trim(email) == "" || Trim(message) == "" then Refuse(Incomplete)
    else if !EmailOk(email) then Refuse(InvalidEmail)
    else if hp != "" then PretendSent
    else Send
  }

  /** The verdicts past the required-field check: a bad email is refused,
      and a good one is sent unless the honeypot is filled. */
  lemma CheckMeaning(name: string, email: string, message: string, hp: string)
    ensures Check(name, email, message, hp) == Refuse(InvalidEmail) <==>
      !IsBlank(name) && !IsBlank(email) && !IsBlank(message) && !MatchesEmailRegex(email)
    ensures Check(name, email, message, hp) == PretendSent <==>
      !IsBlank(name) && !IsBlank(message) && MatchesEmailRegex(email) && hp != ""
    ensures Check(name, email, message, hp) == Send <==>
      !IsBlank(name) && !IsBlank(message) && MatchesEmailRegex(email) && hp == ""
  {
  }

  /** The status after the post: success only when the response is ok and
      its JSON reads; otherwise the caught error's message, which `??` keeps
      even when it is empty. */
  function StatusAfter(o: Outcome): (r: Status)
    ensures r.ok <==> o.Resolved? && o.ok && o.payload.Parsed?
    ensures r.ok ==> r.message == Sent
    ensures o.Resolved? && !o.ok && o.payload.Parsed? ==>
      r == Status(false, OrElse(o.payload.message, NotSent)) && r.message != ""
    ensures o.Rejected? ==> r == Status(false, Nullish(o.error, Unknown))
    ensures o.Resolved? && o.payload.Unparseable? ==> r == Status(false, Nullish(o.payload.error, Unknown))
  {
    match Caught(o, NotSent)
    case None => Status(true, Sent)
    case Some(e) => Status(false, Nullish(e, Unknown))
  }

  class ContactFormState {
    var name: string
    var email: string
    var message: string
    var hp: string
    var submitting: bool
    var status: Option<Status>

    constructor()
      ensures name == "" && email == "" && message == "" && hp == ""
      ensures !submitting && status.None?
    {
      name := "";
      email := "";
      message := "";
      hp := "";
      submitting := false;
      status := None;
    }

    /** The checks' verdict on what is typed. */
    function Verdict(): Verdict
      reads this
    {
      Check(name, email, message, hp)
    }

    /** `onSubmit` up to the `await`. Only a genuine submission is posted;
        the honeypot case clears the fields and claims success. */
    method Submit() returns (request: Option<ContactRequest>)
      modifies this`name, this`email, this`message, this`submitting, this`status
      ensures request.Some? <==> old(Verdict()) == Send
      ensures request.Some? ==>
        request.value == ContactRequest(name, email, message) && submitting && status.None?
      ensures old(Verdict()) == PretendSent ==>
        status == Some(Status(true, PretendThanks)) && name == "" && email == "" && message == ""
      ensures old(Verdict()).Refuse? ==> status == Some(Status(false, old(Verdict()).message))
      ensures old(Verdict()) != PretendSent ==> unchanged(this`name, this`email, this`message)
      ensures request.None? ==> submitting == old(submitting)
    {
      var v := Verdict();
      request := Act(v);
    }

    /** What `onSubmit` does once the checks have given verdict `v`. */
    method Act(v: Verdict) returns (request: Option<ContactRequest>)
      modifies this`name, this`email, this`message, this`submitting, this`status
      ensures request.Some? <==> v == Send
      ensures request.Some? ==>
        request.value == ContactRequest(name, email, message) && submitting && status.None?
      ensures v == PretendSent ==>
        status == Some(Status(true, PretendThanks)) && name == "" && email == "" && message == ""
      ensures v.Refuse? ==> status == Some(Status(false, v.message))
      ensures v != PretendSent ==> unchanged(this`name, this`email, this`message)
      ensures request.None? ==> submitting == old(submitting)
    {
      status := None;
      request := None;
      if v == Send {
        submitting := true;
        request := Some(ContactRequest(name, email, message));
      } else if v == PretendSent {
        status := Some(Status(true, PretendThanks));
        name, email, message := "", "", "";
      } else {
        status := Some(Status(false, v.message));
      }
    }

    /** `onSubmit` after the `await`, including `finally`: success clears the
        fields, failure keeps them. */
    method Settle(o: Outcome)
      modifies this
      ensures status == Some(StatusAfter(o)) && !submitting && hp == old(hp)
      ensures StatusAfter(o).ok ==> name == "" && email == "" && message == ""
      ensures !StatusAfter(o).ok ==> unchanged(this`name, this`email, this`message)
    {
      var s := StatusAfter(o);
      status := Some(s);
      if s.ok {
        name, email, message := "", "", "";
      }
      submitting := false;
    }
  }
}
