/**
  The two lead collections of src/lib/firebase/leads.ts. Both are only ever
  appended to: the module offers one save per collection and nothing that
  updates or deletes.
 */
module Leads {
  import opened Common

  datatype ContactLeadPayload = ContactLeadPayload(name: string, email: string, phone: string, subject: string, message: string)

  /** Quotation numbers are JavaScript numbers: the area is parsed as a float, the floor count as an integer. */
  datatype QuotationRequestPayload = QuotationRequestPayload(
    projectType: string, area: real, floors: int, location: string, quality: string, estimate: real)

  /** A stored record: the payload's fields plus the server's `createdAt`. */
  datatype Stamped<T> = Stamped(payload: T, createdAt: Timestamp)

  class LeadRecorder {
    var contactLeads: seq<Stamped<ContactLeadPayload>>
    var quotationRequests: seq<Stamped<QuotationRequestPayload>>
    /** The value the next `serverTimestamp()` resolves to. */
    var now: Timestamp

    /** Each collection is in save order: stamps strictly increase, and all lie before `now`. */
    ghost predicate Valid()
      reads this
    {
      && InSaveOrder(contactLeads, now)
      && InSaveOrder(quotationRequests, now)
    }

    constructor ()
      ensures Valid() && contactLeads == [] && quotationRequests == []
    {
      contactLeads := [];
      quotationRequests := [];
      now := 0;
    }

    /** `saveContactLead(payload)`: one more contact lead; the quotation requests are untouched. */
    method SaveContactLead(payload: ContactLeadPayload)
      requires Valid()
      modifies this
      ensures Valid()
      ensures contactLeads == old(contactLeads) + [Stamped(payload, old(now))]
      ensures quotationRequests == old(quotationRequests)
    {
      contactLeads := contactLeads + [Stamped(payload, now)];
      now := now + 1;
    }

    /** `saveQuotationRequest(payload)`: one more quotation request; the contact leads are untouched. */
    method SaveQuotationRequest(payload: QuotationRequestPayload)
      requires Valid()
      modifies this
      ensures Valid()
      ensures quotationRequests == old(quotationRequests) + [Stamped(payload, old(now))]
      ensures contactLeads == old(contactLeads)
    {
      quotationRequests := quotationRequests + [Stamped(payload, now)];
      now := now + 1;
    }
  }

  ghost predicate InSaveOrder<T>(records: seq<Stamped<T>>, now: Timestamp)
  {
    && (forall i :: 0 <= i < |records| ==> records[i].createdAt < now)
    && (forall i, j :: 0 <= i < j < |records| ==> records[i].createdAt < records[j].createdAt)
  }

  /**
    Appending a record stamped `now` keeps a collection in save order once the
    clock has moved on, and leaves every earlier record where it was.
   */
  lemma {:induction false} AppendKeepsSaveOrder<T>(records: seq<Stamped<T>>, payload: T, now: Timestamp)
    requires InSaveOrder(records, now)
    ensures InSaveOrder(records + [Stamped(payload, now)], now + 1)
    ensures records <= records + [Stamped(payload, now)]
  {
    var r := records + [Stamped(payload, now)];
    forall i, j | 0 <= i < j < |r|
      ensures r[i].createdAt < r[j].createdAt
    {
      if j == |records| {
        assert r[i] == records[i];
      } else {
        assert r[i] == records[i] && r[j] == records[j];
      }
    }
  }
}
