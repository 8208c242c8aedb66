/** One checkout-history event, in the shape the checkout service builds and
    the tests and both ledgers read: a book id, an optional checkout date, an
    optional return date and a `returned` flag.

    src/domain/checkout_history.py declares the frozen dataclass with other
    names (`checked_out_at`, required, and `returned_at`), while the service
    passes `checkout_date`/`return_date` and the in-memory ledger assigns to
    the fields of stored events. The events of this model have the shape the
    service and the tests use; DeclaredConstructor below models the declared
    constructor, to show that it rejects the service's calls. The frozen flag,
    which would also make the in-memory ledger's update_event raise, is not
    modelled. */
module Events {
  import opened Common
  import opened Seqs

  /** A timestamp, as a count of clock ticks. */
  type Instant = nat

  datatype CheckoutEvent = CheckoutEvent(
    bookId: string,
    checkoutDate: Option<Instant>,
    returnDate: Option<Instant>,
    returned: bool)

  /** The event check_out records (src/services/checkout_service.py:22-26). */
  function CheckedOutEvent(bookId: string, now: Instant): CheckoutEvent
  {
    CheckoutEvent(bookId, Some(now), None, false)
  }

  /** The event check_in records (src/services/checkout_service.py:36-40). */
  function CheckedInEvent(bookId: string, now: Instant): CheckoutEvent
  {
    CheckoutEvent(bookId, None, Some(now), true)
  }

  /** `e.book_id == bookId`. */
  function ForBook(bookId: string): CheckoutEvent -> bool
  {
    (e: CheckoutEvent) => e.bookId == bookId
  }

  /** `[e for e in events if e.book_id == bookId]`: one book's history. */
  function HistoryFor(events: seq<CheckoutEvent>, bookId: string): (r: seq<CheckoutEvent>)
    ensures |r| <= |events|
    ensures forall i :: 0 <= i < |r| ==> r[i].bookId == bookId && r[i] in events
    ensures forall i :: 0 <= i < |events| && events[i].bookId == bookId ==> events[i] in r
  {
    Filter(ForBook(bookId), events)
  }

  /** Appending one event grows exactly that event's book's history, at its end. */
  lemma HistoryForAppend(events: seq<CheckoutEvent>, e: CheckoutEvent, bookId: string)
    ensures HistoryFor(events + [e], bookId)
            == HistoryFor(events, bookId) + (if e.bookId == bookId then [e] else [])
  {
    FilterSnoc(ForBook(bookId), events, e);
  }

  // ---------------------------------------------------------------------------
  // The dataclass as declared in src/domain/checkout_history.py:4-9.

  /** Its field names, which are the keywords its constructor takes. */
  const DeclaredFields: set<string> := {"book_id", "checked_out_at", "returned_at", "returned"}

  /** The fields without a default, which every call must pass. */
  const RequiredFields: set<string> := {"book_id", "checked_out_at"}

  /** Calling the declared constructor with the given keywords: an unknown
      keyword, or a missing required one, raises TypeError. */
  function DeclaredConstructor(keywords: set<string>): (r: Outcome)
    ensures r.Pass? <==> keywords <= DeclaredFields && RequiredFields <= keywords
    ensures r.Fail? ==> r.error.TypeError?
  {
    if !(keywords <= DeclaredFields) then Fail(TypeError("unexpected keyword argument"))
    else if !(RequiredFields <= keywords) then Fail(TypeError("missing required argument"))
    else Pass
  }

  /** As declared, the dataclass accepts neither call the checkout service
      makes (src/services/checkout_service.py:22-26 and 36-40): both pass a
      keyword it does not have and omit `checked_out_at`. */
  lemma ServiceEventsRejected()
    ensures DeclaredConstructor({"book_id", "checkout_date", "returned"}).Fail?
    ensures DeclaredConstructor({"book_id", "return_date", "returned"}).Fail?
  {
    assert "checkout_date" !in DeclaredFields;
    assert "return_date" !in DeclaredFields;
  }

  /** An event update_event rewrites: one of the book's, not yet returned. */
  predicate Pending(e: CheckoutEvent, bookId: string)
  {
    e.bookId == bookId && !e.returned
  }

  /** update_event's change to one event: a pending event of the book gets the
      given `returned` flag and, when one is given, the return date. */
  function MarkReturned(bookId: string, returned: bool, returnDate: Option<Instant>): CheckoutEvent -> CheckoutEvent
  {
    (e: CheckoutEvent) =>
      if Pending(e, bookId) then
        e.(returned := returned, returnDate := if returnDate.Some? then returnDate else e.returnDate)
      else e
  }

  /** update_event touches only pending events of the book, and only their
      `returned` flag and return date. */
  lemma MarkReturnedOnlyPending(bookId: string, returned: bool, returnDate: Option<Instant>, e: CheckoutEvent)
    ensures !Pending(e, bookId) ==> MarkReturned(bookId, returned, returnDate)(e) == e
    ensures MarkReturned(bookId, returned, returnDate)(e).bookId == e.bookId
    ensures MarkReturned(bookId, returned, returnDate)(e).checkoutDate == e.checkoutDate
    ensures Pending(e, bookId) ==> MarkReturned(bookId, returned, returnDate)(e).returned == returned
    ensures Pending(e, bookId) && returnDate.Some? ==> MarkReturned(bookId, returned, returnDate)(e).returnDate == returnDate
    ensures returnDate.None? ==> MarkReturned(bookId, returned, returnDate)(e).returnDate == e.returnDate
  {
  }
}
