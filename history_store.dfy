/** The in-memory checkout ledger the checkout service runs against in the
    tests (tests/mocks/mock_checkout_history_repository.py). */
module HistoryStore {
  import opened Common
  import opened Seqs
  import opened Events

  /** The events delete_events_for_book keeps. */
  function OtherBooks(events: seq<CheckoutEvent>, bookId: string): (r: seq<CheckoutEvent>)
    ensures forall i :: 0 <= i < |r| ==> r[i].bookId != bookId && r[i] in events
    ensures forall i :: 0 <= i < |events| && events[i].bookId != bookId ==> events[i] in r
  {
    Filter(Not(ForBook(bookId)), events)
  }

  /** Deleting a book's events removes exactly as many as its history holds,
      and leaves it with no history. */
  lemma OtherBooksCount(events: seq<CheckoutEvent>, bookId: string)
    ensures |events| - |OtherBooks(events, bookId)| == |HistoryFor(events, bookId)|
    ensures HistoryFor(OtherBooks(events, bookId), bookId) == []
  {
    FilterPartition(ForBook(bookId), events);
    FilterDropsAll(ForBook(bookId), OtherBooks(events, bookId));
  }

  /** Deleting one book's events keeps every other book's history as it was. */
  lemma OtherBooksKeepsOthers(events: seq<CheckoutEvent>, bookId: string, other: string)
    requires other != bookId
    ensures HistoryFor(OtherBooks(events, bookId), other) == HistoryFor(events, other)
  {
    OtherBooksKeepsOthersRec(events, bookId, other);
  }

  lemma {:induction false} OtherBooksKeepsOthersRec(events: seq<CheckoutEvent>, bookId: string, other: string)
    requires other != bookId
    ensures Filter(ForBook(other), Filter(Not(ForBook(bookId)), events)) == Filter(ForBook(other), events)
  {
    if events != [] {
      OtherBooksKeepsOthersRec(events[1..], bookId, other);
    }
  }

  class MockCheckoutHistoryRepo {
    var events: seq<CheckoutEvent>

    constructor ()
      ensures events == []
    {
      events := [];
    }

    /** add_event: appends the event. */
    method AddEvent(event: CheckoutEvent)
      modifies this
      ensures events == old(events) + [event]
    {
      events := events + [event];
    }

    /** get_history_for_book: the book's events, in insertion order. */
    function GetHistoryForBook(bookId: string): (r: seq<CheckoutEvent>)
      reads this
      ensures r == HistoryFor(events, bookId)
    {
      HistoryFor(events, bookId)
    }

    /** get_history_all: a copy of all events, in insertion order. */
    function GetHistoryAll(): (r: seq<CheckoutEvent>)
      reads this
      ensures |r| == |events| && forall i :: 0 <= i < |r| ==> r[i] == events[i]
    {
      events
    }

    /** update_event: every pending event of the book gets `returned` and,
        when given, the return date; returns True iff one was pending. */
    method UpdateEvent(bookId: string, returned: bool, returnDate: Option<Instant>) returns (updated: bool)
      modifies this
      ensures events == Map(MarkReturned(bookId, returned, returnDate), old(events))
      ensures updated <==> exists i :: 0 <= i < |old(events)| && Pending(old(events)[i], bookId)
    {
      updated := false;
      var i := 0;
      while i < |events|
        invariant 0 <= i <= |events| == |old(events)|
        invariant forall j :: 0 <= j < i ==> events[j] == MarkReturned(bookId, returned, returnDate)(old(events)[j])
        invariant forall j :: i <= j < |events| ==> events[j] == old(events)[j]
        invariant updated <==> exists j :: 0 <= j < i && Pending(old(events)[j], bookId)
      {
        var e := events[i];
        if e.bookId == bookId && !e.returned {
          e := e.(returned := returned);
          if returnDate.Some? {
            e := e.(returnDate := returnDate);
          }
          events := events[i := e];
          updated := true;
        }
        i := i + 1;
      }
    }

    /** delete_events_for_book: drops the book's events, keeps the others in
        order, and returns how many it dropped. */
    method DeleteEventsForBook(bookId: string) returns (count: int)
      modifies this
      ensures events == OtherBooks(old(events), bookId)
      ensures count == |HistoryFor(old(events), bookId)|
    {
      var beforeCount := |events|;
      events := OtherBooks(events, bookId);
      count := beforeCount - |events|;
      OtherBooksCount(old(events), bookId);
    }
  }
}
