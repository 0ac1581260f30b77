/**
 * The Stripe webhook (app/api/webhook/stripe/route.ts): after the signature
 * check, a completed checkout session is prepended, as a donation record, to
 * the list kept in the donations file. Stripe's signature check is an input:
 * either the event it recovers, or a failure.
 */
module Webhook {
  import opened Wrappers

  const Completed := "checkout.session.completed"

  datatype CheckoutSession = CheckoutSession(
    id: string,
    customerEmail: Option<string>,
    amountTotal: Option<int>,
    currency: Option<string>,
    metadata: Option<map<string, string>>,
    paymentStatus: string)

  datatype StripeEvent = StripeEvent(kind: string, session: CheckoutSession)

  /** What `stripe.webhooks.constructEvent` does with the raw body, the
      signature header and the secret. */
  datatype Verification = BadSignature | Verified(event: StripeEvent)

  /** One entry of the donations list. */
  datatype DonationRecord = DonationRecord(
    id: string,
    customerEmail: Option<string>,
    amountTotal: Option<int>,
    currency: Option<string>,
    metadata: Option<map<string, string>>,
    paymentStatus: string,
    createdAt: string)

  /** The donations file as `JSON.parse` sees it: absent, not JSON, JSON
      that is not an array, or the list of records. */
  datatype StoredFile = Missing | Corrupt | NonArray | Records(entries: seq<DonationRecord>)

  /** How `mkdir` and `writeFile` end. `NotWritten`: they fail before the
      file is opened, which leaves it as it was. `Truncated`: `writeFile` has
      opened the file, which empties it, and fails partway (a full disk, say);
      the file then holds a strict prefix of the JSON text of an array, which
      is empty or has an unclosed `[`, so `JSON.parse` refuses it. */
  datatype WriteResult = Written | NotWritten | Truncated

  /** The answer: `{ received }` with its status. */
  datatype Ack = Ack(status: nat, received: bool)

  /** The record for a session: its fields copied unchanged (the amount stays
      in the smallest currency unit), stamped with the time of receipt. */
  function RecordOf(s: CheckoutSession, createdAt: string): (r: DonationRecord)
    ensures r.id == s.id && r.customerEmail == s.customerEmail
    ensures r.amountTotal == s.amountTotal && r.currency == s.currency
    ensures r.metadata == s.metadata && r.paymentStatus == s.paymentStatus
    ensures r.createdAt == createdAt
  {
    DonationRecord(s.id, s.customerEmail, s.amountTotal, s.currency, s.metadata,
                   s.paymentStatus, createdAt)
  }

  /** The list the route starts from: a missing or unreadable file reads as
      empty; a non-array has no list (its `unshift` throws). */
  function ListOf(f: StoredFile): (r: Option<seq<DonationRecord>>)
    ensures f.Missing? || f.Corrupt? ==> r == Some([])
    ensures f.NonArray? <==> r.None?
    ensures f.Records? ==> r == Some(f.entries)
  {
    match f
    case Missing => Some([])
    case Corrupt => Some([])
    case NonArray => None
    case Records(entries) => Some(entries)
  }

  /** The answer and the file after one delivery, `write` saying how
      creating the directory and writing the file end. */
  function Step(f: StoredFile, v: Verification, now: string, write: WriteResult): (r: (Ack, StoredFile))
    ensures v.BadSignature? ==> r == (Ack(400, false), f)
    ensures v.Verified? && v.event.kind != Completed ==> r == (Ack(200, true), f)
    ensures r.0.received <==> r.0.status == 200
    ensures r.0.status == 500 ==> r.1 == f || r.1 == Corrupt
    ensures r.1 != f ==> r.0 == Ack(200, true) || (r.0 == Ack(500, false) && r.1 == Corrupt)
    ensures v.Verified? && v.event.kind == Completed && f.Records? && write.Written? ==>
      r == (Ack(200, true), Records([RecordOf(v.event.session, now)] + f.entries))
    ensures v.Verified? && v.event.kind == Completed && (f.Missing? || f.Corrupt?) && write.Written? ==>
      r == (Ack(200, true), Records([RecordOf(v.event.session, now)]))
    ensures v.Verified? && v.event.kind == Completed && (f.NonArray? || write.NotWritten?) ==>
      r == (Ack(500, false), f)
    ensures v.Verified? && v.event.kind == Completed && !f.NonArray? && write.Truncated? ==>
      r == (Ack(500, false), Corrupt)
  {
    if v.BadSignature? then (Ack(400, false), f)
    else if v.event.kind != Completed then (Ack(200, true), f)
    else
      var list := ListOf(f);
      if list.None? || write.NotWritten? then (Ack(500, false), f)
      else if write.Truncated? then (Ack(500, false), Corrupt)
      else
        var record := RecordOf(v.event.session, now);
        assert [record] + [] == [record];
        (Ack(200, true), Records([record] + list.value))
  }

  /** Nothing checks whether a session was already recorded: delivering the
      same event twice records it twice. */
  lemma {:induction false} RedeliveryDuplicates(f: StoredFile, e: StripeEvent, now1: string, now2: string)
    requires e.kind == Completed && !f.NonArray?
    ensures var once := Step(f, Verified(e), now1, Written).1;
      var twice := Step(once, Verified(e), now2, Written).1;
      && twice.Records? && |twice.entries| >= 2
      && twice.entries[0] == RecordOf(e.session, now2)
      && twice.entries[1] == RecordOf(e.session, now1)
      && twice.entries[0].id == twice.entries[1].id
  {
    var once := Step(f, Verified(e), now1, Written).1;
    assert once.Records? && once.entries[0] == RecordOf(e.session, now1);
    var twice := Step(once, Verified(e), now2, Written).1;
    assert twice.entries == [RecordOf(e.session, now2)] + once.entries;
  }

  /** A write that fails partway loses the whole history: the next completed
      checkout reads the truncated file as empty and leaves its own record
      alone in the file. */
  lemma {:induction false} TruncatedWriteLosesHistory(entries: seq<DonationRecord>, e1: StripeEvent, e2: StripeEvent,
                                                       now1: string, now2: string)
    requires e1.kind == Completed && e2.kind == Completed
    ensures var after := Step(Records(entries), Verified(e1), now1, Truncated);
      var next := Step(after.1, Verified(e2), now2, Written);
      && after.0 == Ack(500, false)
      && next == (Ack(200, true), Records([RecordOf(e2.session, now2)]))
  {
    var after := Step(Records(entries), Verified(e1), now1, Truncated);
    assert after.1 == Corrupt;
    assert ListOf(after.1) == Some([]);
  }

  /** The donations file and the route that appends to it. */
  class DonationLog {
    var file: StoredFile

    constructor(initial: StoredFile)
      ensures file == initial
    {
      file := initial;
    }

    /** `POST`: verify, then for a completed checkout read the list (empty
        when the file is missing or not JSON), put the record first and
        write the list back. */
    method Post(v: Verification, now: string, write: WriteResult) returns (ack: Ack)
      modifies this
      ensures (ack, file) == Step(old(file), v, now, write)
    {
      if v.BadSignature? {
        return Ack(400, false);
      }
      var event := v.event;
      if event.kind == Completed {
        var record := RecordOf(event.session, now);
        var all: seq<DonationRecord> := [];
        match file {
          case Records(entries) => all := entries;
          case NonArray => return Ack(500, false);
          case Missing =>
          case Corrupt =>
        }
        all := [record] + all;
        if write.NotWritten? {
          return Ack(500, false);
        }
        if write.Truncated? {
          file := Corrupt;
          return Ack(500, false);
        }
        file := Records(all);
      }
      ack := Ack(200, true);
    }
  }
}
