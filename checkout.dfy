/** The checkout coordinator (src/services/checkout_service.py). Each
    operation finds the first book with the id, applies the availability
    transition, persists the book through update_book (whose result is
    ignored), then appends one history event. A failed lookup or transition
    raises before either store is written. `now` stands for datetime.now(). */
module Checkout {
  import opened Common
  import opened Seqs
  import opened Books
  import opened BookStore
  import opened Events
  import opened HistoryStore

  /** The state of the two stores the coordinator writes. */
  datatype Library = Library(books: seq<BookRecord>, events: seq<CheckoutEvent>)

  /** What an operation returns, and the stores afterwards. */
  datatype Step = Step(outcome: Outcome, after: Library)

  /** CheckoutService.check_out, as a function of the stores. */
  function CheckOutStep(lib: Library, bookId: string, now: Instant): Step
  {
    match FirstIndex(HasId(bookId), lib.books)
    case None => Step(Fail(BookNotFound), lib)
    case Some(i) =>
      match CheckedOut(lib.books[i])
      case Err(e) => Step(Fail(e), lib)
      case Ok(book) =>
        Step(Pass, Library(UpdatedBooks(lib.books, book),
                           lib.events + [CheckedOutEvent(book.bookId, now)]))
  }

  /** CheckoutService.check_in, as a function of the stores. */
  function CheckInStep(lib: Library, bookId: string, now: Instant): Step
  {
    match FirstIndex(HasId(bookId), lib.books)
    case None => Step(Fail(BookNotFound), lib)
    case Some(i) =>
      match CheckedIn(lib.books[i])
      case Err(e) => Step(Fail(e), lib)
      case Ok(book) =>
        Step(Pass, Library(UpdatedBooks(lib.books, book),
                           lib.events + [CheckedInEvent(book.bookId, now)]))
  }

  /** check_out fails with BookNotFound exactly when no book has the id, and
      with AlreadyCheckedOut exactly when the first such book is not available
      (its flag false or unset); a failure writes neither store. On success
      the first book with the id, and only it, becomes unavailable, and one
      event for the id, not returned and dated `now`, is appended. */
  lemma CheckOutEffect(lib: Library, bookId: string, now: Instant)
    ensures var s := CheckOutStep(lib, bookId, now);
      && (s.outcome == Fail(BookNotFound) <==> !Contains(lib.books, bookId))
      && (s.outcome.Fail? ==> s.after == lib)
      && (s.outcome.Fail? && Contains(lib.books, bookId) ==> s.outcome == Fail(AlreadyCheckedOut))
      && match FirstIndex(HasId(bookId), lib.books)
         case None => true
         case Some(i) =>
           && (s.outcome == Pass <==> lib.books[i].available == Some(true))
           && (s.outcome == Pass ==>
                 && s.after.books == lib.books[i := lib.books[i].(available := Some(false))]
                 && s.after.events == lib.events + [CheckoutEvent(bookId, Some(now), None, false)])
  {
    match FirstIndex(HasId(bookId), lib.books)
    case None =>
    case Some(i) =>
      if lib.books[i].available == Some(true) {
        UpdatedAtFirstMatch(lib.books, i, lib.books[i].(available := Some(false)));
      }
  }

  /** check_in fails with BookNotFound exactly when no book has the id, and
      with AlreadyAvailable exactly when the first such book is available; a
      failure writes neither store. On success the first book with the id,
      and only it, becomes available (also from an unset flag), and one
      returned event for the id, with return date `now`, is appended. */
  lemma CheckInEffect(lib: Library, bookId: string, now: Instant)
    ensures var s := CheckInStep(lib, bookId, now);
      && (s.outcome == Fail(BookNotFound) <==> !Contains(lib.books, bookId))
      && (s.outcome.Fail? ==> s.after == lib)
      && (s.outcome.Fail? && Contains(lib.books, bookId) ==> s.outcome == Fail(AlreadyAvailable))
      && match FirstIndex(HasId(bookId), lib.books)
         case None => true
         case Some(i) =>
           && (s.outcome == Pass <==> lib.books[i].available != Some(true))
           && (s.outcome == Pass ==>
                 && s.after.books == lib.books[i := lib.books[i].(available := Some(true))]
                 && s.after.events == lib.events + [CheckoutEvent(bookId, None, Some(now), true)])
  {
    match FirstIndex(HasId(bookId), lib.books)
    case None =>
    case Some(i) =>
      if lib.books[i].available != Some(true) {
        UpdatedAtFirstMatch(lib.books, i, lib.books[i].(available := Some(true)));
      }
  }

  /** Persisting a book whose id is that of the first match replaces that match. */
  lemma UpdatedAtFirstMatch(books: seq<BookRecord>, i: nat, book: BookRecord)
    requires FirstIndex(HasId(book.bookId), books) == Some(i)
    ensures UpdatedBooks(books, book) == books[i := book]
  {
  }

  /** A successful operation appends exactly one event and leaves the earlier
      events as an unchanged prefix; check-in appends rather than updating the
      check-out event. */
  lemma HistoryOnlyGrows(lib: Library, bookId: string, now: Instant)
    ensures var s := CheckOutStep(lib, bookId, now);
      s.outcome == Pass ==> |s.after.events| == |lib.events| + 1 && s.after.events[..|lib.events|] == lib.events
    ensures var s := CheckInStep(lib, bookId, now);
      s.outcome == Pass ==> |s.after.events| == |lib.events| + 1 && s.after.events[..|lib.events|] == lib.events
  {
    CheckOutEffect(lib, bookId, now);
    CheckInEffect(lib, bookId, now);
  }

  /** An operation on one book leaves every book with another id, and the
      history of every other id, as they were. */
  lemma OtherBooksUntouched(lib: Library, bookId: string, other: string, now: Instant)
    requires other != bookId
    ensures var s := CheckOutStep(lib, bookId, now);
      && (forall j :: 0 <= j < |lib.books| && lib.books[j].bookId == other ==> s.after.books[j] == lib.books[j])
      && HistoryFor(s.after.events, other) == HistoryFor(lib.events, other)
    ensures var s := CheckInStep(lib, bookId, now);
      && (forall j :: 0 <= j < |lib.books| && lib.books[j].bookId == other ==> s.after.books[j] == lib.books[j])
      && HistoryFor(s.after.events, other) == HistoryFor(lib.events, other)
  {
    CheckOutEffect(lib, bookId, now);
    CheckInEffect(lib, bookId, now);
    HistoryForAppend(lib.events, CheckedOutEvent(bookId, now), other);
    HistoryForAppend(lib.events, CheckedInEvent(bookId, now), other);
  }

  /** Checking an available book out and then in again restores the book
      store exactly, and the book's history ends with the check-out event
      followed by the check-in event. */
  lemma CheckOutThenCheckInRestores(lib: Library, bookId: string, t1: Instant, t2: Instant)
    requires Contains(lib.books, bookId)
    requires lib.books[FirstIndex(HasId(bookId), lib.books).value].available == Some(true)
    ensures CheckOutStep(lib, bookId, t1).outcome == Pass
    ensures var mid := CheckOutStep(lib, bookId, t1).after;
      && CheckInStep(mid, bookId, t2).outcome == Pass
      && CheckInStep(mid, bookId, t2).after.books == lib.books
      && HistoryFor(CheckInStep(mid, bookId, t2).after.events, bookId)
         == HistoryFor(lib.events, bookId) + [CheckedOutEvent(bookId, t1), CheckedInEvent(bookId, t2)]
  {
    var i := FirstIndex(HasId(bookId), lib.books).value;
    CheckOutEffect(lib, bookId, t1);
    var mid := CheckOutStep(lib, bookId, t1).after;
    assert mid.books[i] == lib.books[i].(available := Some(false));
    FirstMatchAt(mid.books, bookId, i);
    CheckInEffect(mid, bookId, t2);
    assert mid.books[i := mid.books[i].(available := Some(true))] == lib.books;
    HistoryForAppend(lib.events, CheckedOutEvent(bookId, t1), bookId);
    HistoryForAppend(mid.events, CheckedInEvent(bookId, t2), bookId);
  }

  /** A store of freshly created books, none checked out, with distinct ids. */
  predicate FreshBooks(books: seq<BookRecord>)
  {
    && (forall i :: 0 <= i < |books| ==> books[i].available == Some(true))
    && (forall i, j :: 0 <= i < j < |books| ==> books[i].bookId != books[j].bookId)
  }

  /** The lookup finds position k when the book there has the id and no
      earlier book does. */
  lemma FirstMatchAt(books: seq<BookRecord>, bookId: string, k: nat)
    requires k < |books| && books[k].bookId == bookId
    requires forall j :: 0 <= j < k ==> books[j].bookId != bookId
    ensures FirstIndex(HasId(bookId), books) == Some(k)
  {
    match FirstIndex(HasId(bookId), books)
    case None =>
    case Some(i) =>
  }

  /** Books A and B are added; A is checked out, then B, then A is checked
      in: A's history holds two events, B's one, all three in call order, and
      A is available again while B is not (tests/services/test_checkout_service.py:46-64). */
  lemma OutAOutBInA(a: BookRecord, b: BookRecord, t1: Instant, t2: Instant, t3: Instant)
    requires FreshBooks([a, b])
    ensures var s1 := CheckOutStep(Library([a, b], []), a.bookId, t1);
      var s2 := CheckOutStep(s1.after, b.bookId, t2);
      var s3 := CheckInStep(s2.after, a.bookId, t3);
      && s1.outcome == Pass && s2.outcome == Pass && s3.outcome == Pass
      && s3.after.events == [CheckedOutEvent(a.bookId, t1), CheckedOutEvent(b.bookId, t2), CheckedInEvent(a.bookId, t3)]
      && |HistoryFor(s3.after.events, a.bookId)| == 2
      && |HistoryFor(s3.after.events, b.bookId)| == 1
      && s3.after.books == [a, b.(available := Some(false))]
  {
    var lib := Library([a, b], []);
    FirstMatchAt(lib.books, a.bookId, 0);
    CheckOutEffect(lib, a.bookId, t1);
    var s1 := CheckOutStep(lib, a.bookId, t1);
    assert s1.after.books == [a.(available := Some(false)), b];
    FirstMatchAt(s1.after.books, b.bookId, 1);
    CheckOutEffect(s1.after, b.bookId, t2);
    var s2 := CheckOutStep(s1.after, b.bookId, t2);
    assert s2.after.books == [a.(available := Some(false)), b.(available := Some(false))];
    FirstMatchAt(s2.after.books, a.bookId, 0);
    CheckInEffect(s2.after, a.bookId, t3);
    var s3 := CheckInStep(s2.after, a.bookId, t3);
    assert s3.after.books == [a, b.(available := Some(false))];
    assert [a, b][0].bookId != [a, b][1].bookId;
    assert HistoryFor([], a.bookId) == [] && HistoryFor([], b.bookId) == [];
    var e1, e2, e3 := CheckedOutEvent(a.bookId, t1), CheckedOutEvent(b.bookId, t2), CheckedInEvent(a.bookId, t3);
    assert [] + [e1] == [e1] && [e1] + [e2] == [e1, e2] && [e1, e2] + [e3] == s3.after.events;
    HistoryForAppend([], e1, a.bookId);
    HistoryForAppend([e1], e2, a.bookId);
    HistoryForAppend([e1, e2], e3, a.bookId);
    HistoryForAppend([], e1, b.bookId);
    HistoryForAppend([e1], e2, b.bookId);
    HistoryForAppend([e1, e2], e3, b.bookId);
    assert |HistoryFor(s3.after.events, a.bookId)| == 2;
    assert |HistoryFor(s3.after.events, b.bookId)| == 1;
  }

  /** Books A and B are added and both checked out: the full history holds
      two events, one per book, in call order
      (tests/services/test_checkout_service.py:66-81). */
  lemma OutAOutB(a: BookRecord, b: BookRecord, t1: Instant, t2: Instant)
    requires FreshBooks([a, b])
    ensures var s1 := CheckOutStep(Library([a, b], []), a.bookId, t1);
      var s2 := CheckOutStep(s1.after, b.bookId, t2);
      && s1.outcome == Pass && s2.outcome == Pass
      && s2.after.events == [CheckedOutEvent(a.bookId, t1), CheckedOutEvent(b.bookId, t2)]
      && forall i :: 0 <= i < |s2.after.events| ==> s2.after.events[i].bookId in {a.bookId, b.bookId}
  {
    var lib := Library([a, b], []);
    FirstMatchAt(lib.books, a.bookId, 0);
    CheckOutEffect(lib, a.bookId, t1);
    var s1 := CheckOutStep(lib, a.bookId, t1);
    assert [a, b][0].bookId != [a, b][1].bookId;
    FirstMatchAt(s1.after.books, b.bookId, 1);
    CheckOutEffect(s1.after, b.bookId, t2);
  }

  /** Checking out an already checked-out book fails and appends nothing. */
  lemma SecondCheckOutFails(lib: Library, bookId: string, t1: Instant, t2: Instant)
    requires CheckOutStep(lib, bookId, t1).outcome == Pass
    ensures var mid := CheckOutStep(lib, bookId, t1).after;
      CheckOutStep(mid, bookId, t2) == Step(Fail(AlreadyCheckedOut), mid)
  {
    CheckOutEffect(lib, bookId, t1);
    var i := FirstIndex(HasId(bookId), lib.books).value;
    var mid := CheckOutStep(lib, bookId, t1).after;
    FirstMatchAt(mid.books, bookId, i);
  }

  // ---------------------------------------------------------------------------
  // Agreement between the two stores: a book is checked out exactly when its
  // history ends with a check-out that has not been returned.

  /** The book's history is non-empty and its last event is not returned. */
  predicate OnLoan(events: seq<CheckoutEvent>, bookId: string)
  {
    var h := HistoryFor(events, bookId);
    h != [] && !h[|h| - 1].returned
  }

  /** The book the lookup finds for `bookId`, if any, is unavailable exactly
      when the ledger has it on loan. */
  predicate AgreesFor(lib: Library, bookId: string)
  {
    match FirstIndex(HasId(bookId), lib.books)
    case None => true
    case Some(i) => lib.books[i].available == Some(false) <==> OnLoan(lib.events, bookId)
  }

  /** The two stores agree on every id. */
  ghost predicate Consistent(lib: Library)
  {
    forall bookId :: AgreesFor(lib, bookId)
  }

  /** A store in which no book is checked out, with an empty ledger, is
      consistent. */
  lemma ConsistentInitially(books: seq<BookRecord>)
    requires forall i :: 0 <= i < |books| ==> books[i].available != Some(false)
    ensures Consistent(Library(books, []))
  {
    forall bookId
      ensures AgreesFor(Library(books, []), bookId)
    {
      assert HistoryFor([], bookId) == [];
    }
  }

  /** Changing only availability flags leaves every lookup where it was. */
  lemma FirstIndexSameIds(a: seq<BookRecord>, b: seq<BookRecord>, bookId: string)
    requires |a| == |b|
    requires forall j :: 0 <= j < |a| ==> a[j].bookId == b[j].bookId
    ensures FirstIndex(HasId(bookId), a) == FirstIndex(HasId(bookId), b)
  {
    match FirstIndex(HasId(bookId), a)
    case None =>
      assert forall j :: 0 <= j < |b| ==> !HasId(bookId)(b[j]) by {
        forall j | 0 <= j < |b| ensures !HasId(bookId)(b[j]) {
          assert !HasId(bookId)(a[j]);
        }
      }
    case Some(k) =>
      FirstMatchAt(b, bookId, k);
  }

  /** A step that sets the flag of the first book with `bookId` and appends
      `e` for that id keeps every other id's agreement. */
  lemma OtherIdAgrees(lib: Library, bookId: string, i: nat, flag: bool, e: CheckoutEvent, other: string)
    requires FirstIndex(HasId(bookId), lib.books) == Some(i)
    requires e.bookId == bookId && other != bookId
    requires AgreesFor(lib, other)
    ensures AgreesFor(Library(lib.books[i := lib.books[i].(available := Some(flag))], lib.events + [e]), other)
  {
    var books' := lib.books[i := lib.books[i].(available := Some(flag))];
    FirstIndexSameIds(lib.books, books', other);
    HistoryForAppend(lib.events, e, other);
  }

  /** check_out keeps the stores in agreement. */
  lemma CheckOutKeepsConsistent(lib: Library, bookId: string, now: Instant)
    requires Consistent(lib)
    ensures Consistent(CheckOutStep(lib, bookId, now).after)
  {
    CheckOutEffect(lib, bookId, now);
    var s := CheckOutStep(lib, bookId, now);
    if s.outcome == Pass {
      var i := FirstIndex(HasId(bookId), lib.books).value;
      var e := CheckedOutEvent(bookId, now);
      forall other
        ensures AgreesFor(s.after, other)
      {
        assert AgreesFor(lib, other);
        if other == bookId {
          FirstMatchAt(s.after.books, bookId, i);
          HistoryForAppend(lib.events, e, bookId);
        } else {
          OtherIdAgrees(lib, bookId, i, false, e, other);
        }
      }
    }
  }

  /** check_in keeps the stores in agreement. */
  lemma CheckInKeepsConsistent(lib: Library, bookId: string, now: Instant)
    requires Consistent(lib)
    ensures Consistent(CheckInStep(lib, bookId, now).after)
  {
    CheckInEffect(lib, bookId, now);
    var s := CheckInStep(lib, bookId, now);
    if s.outcome == Pass {
      var i := FirstIndex(HasId(bookId), lib.books).value;
      var e := CheckedInEvent(bookId, now);
      forall other
        ensures AgreesFor(s.after, other)
      {
        assert AgreesFor(lib, other);
        if other == bookId {
          FirstMatchAt(s.after.books, bookId, i);
          HistoryForAppend(lib.events, e, bookId);
        } else {
          OtherIdAgrees(lib, bookId, i, true, e, other);
        }
      }
    }
  }

  // ---------------------------------------------------------------------------
  // Alternating calls on one book.

  /** The outcomes of a sequence of calls, and the stores afterwards. */
  datatype Run = Run(outcomes: seq<Outcome>, after: Library)

  /** check_out when `checkOut` holds, otherwise check_in. */
  function Call(lib: Library, bookId: string, t: Instant, checkOut: bool): Step
  {
    if checkOut then CheckOutStep(lib, bookId, t) else CheckInStep(lib, bookId, t)
  }

  /** Calls check_out and check_in on one book in turn, starting with
      check_out when `checkOut` holds, one call per timestamp. */
  function AlternatingRun(lib: Library, bookId: string, times: seq<Instant>, checkOut: bool): Run
    decreases |times|
  {
    if times == [] then Run([], lib)
    else
      var s := Call(lib, bookId, times[0], checkOut);
      var rest := AlternatingRun(s.after, bookId, times[1..], !checkOut);
      Run([s.outcome] + rest.outcomes, rest.after)
  }

  /** The events such a run records, one per call in call order. */
  function AlternatingEvents(bookId: string, times: seq<Instant>, checkOut: bool): (r: seq<CheckoutEvent>)
    ensures |r| == |times|
    ensures forall k :: 0 <= k < |r| ==> r[k].bookId == bookId
    decreases |times|
  {
    if times == [] then []
    else
      [if checkOut then CheckedOutEvent(bookId, times[0]) else CheckedInEvent(bookId, times[0])]
        + AlternatingEvents(bookId, times[1..], !checkOut)
  }

  /** The k-th recorded event is a check-out event, not returned and dated
      by the k-th call, at every position of check_out's parity, and a
      returned check-in event at every other. */
  lemma {:induction false} AlternatingEventsAt(bookId: string, times: seq<Instant>, checkOut: bool, k: nat)
    requires k < |times|
    ensures AlternatingEvents(bookId, times, checkOut)[k]
            == if (k % 2 == 0) == checkOut then CheckedOutEvent(bookId, times[k]) else CheckedInEvent(bookId, times[k])
    decreases k
  {
    if k > 0 {
      AlternatingEventsAt(bookId, times[1..], !checkOut, k - 1);
      assert AlternatingEvents(bookId, times, checkOut)[k] == AlternatingEvents(bookId, times[1..], !checkOut)[k - 1];
    }
  }

  /** One call of an alternating run: when the first book with the id sits
      at `i` and is available exactly when the call is check_out, the call
      succeeds, flips that book's flag and appends its event. */
  lemma AlternatingStep(lib: Library, bookId: string, t: Instant, checkOut: bool, i: nat)
    requires FirstIndex(HasId(bookId), lib.books) == Some(i)
    requires lib.books[i].available == Some(checkOut)
    ensures Call(lib, bookId, t, checkOut).outcome == Pass
    ensures Call(lib, bookId, t, checkOut).after.books == lib.books[i := lib.books[i].(available := Some(!checkOut))]
    ensures Call(lib, bookId, t, checkOut).after.events
            == lib.events + [if checkOut then CheckedOutEvent(bookId, t) else CheckedInEvent(bookId, t)]
    ensures FirstIndex(HasId(bookId), Call(lib, bookId, t, checkOut).after.books) == Some(i)
  {
    if checkOut {
      CheckOutEffect(lib, bookId, t);
    } else {
      CheckInEffect(lib, bookId, t);
    }
    FirstMatchAt(Call(lib, bookId, t, checkOut).after.books, bookId, i);
  }

  /** The first book with `bookId` sits at `i` and its flag is `flag`: the
      state in which a call of the matching kind succeeds. */
  predicate Ready(lib: Library, bookId: string, i: nat, flag: bool)
  {
    FirstIndex(HasId(bookId), lib.books) == Some(i) && lib.books[i].available == Some(flag)
  }

  /** The first call of an alternating run, named by the stores it leaves:
      the rest of the run starts from them. */
  lemma AlternatingRunStep(lib: Library, bookId: string, times: seq<Instant>, checkOut: bool, i: nat)
    returns (mid: Library)
    requires times != []
    requires Ready(lib, bookId, i, checkOut)
    ensures mid.books == lib.books[i := lib.books[i].(available := Some(!checkOut))]
    ensures mid.events == lib.events + [if checkOut then CheckedOutEvent(bookId, times[0]) else CheckedInEvent(bookId, times[0])]
    ensures Ready(mid, bookId, i, !checkOut)
    ensures AlternatingRun(lib, bookId, times, checkOut).outcomes
            == [Pass] + AlternatingRun(mid, bookId, times[1..], !checkOut).outcomes
    ensures AlternatingRun(lib, bookId, times, checkOut).after == AlternatingRun(mid, bookId, times[1..], !checkOut).after
  {
    mid := Call(lib, bookId, times[0], checkOut).after;
    AlternatingStep(lib, bookId, times[0], checkOut, i);
  }

  /** Starting from a book that is available exactly when the first call is
      check_out, n alternating calls all succeed. */
  lemma {:induction false} AlternationSucceeds(lib: Library, bookId: string, times: seq<Instant>, checkOut: bool, i: nat)
    requires Ready(lib, bookId, i, checkOut)
    ensures |AlternatingRun(lib, bookId, times, checkOut).outcomes| == |times|
    ensures forall k :: 0 <= k < |times| ==> AlternatingRun(lib, bookId, times, checkOut).outcomes[k] == Pass
    decreases |times|
  {
    if times != [] {
      var mid := AlternatingRunStep(lib, bookId, times, checkOut, i);
      AlternationSucceeds(mid, bookId, times[1..], !checkOut, i);
      var r := AlternatingRun(lib, bookId, times, checkOut);
      var rest := AlternatingRun(mid, bookId, times[1..], !checkOut);
      assert r.outcomes == [Pass] + rest.outcomes;
      forall k | 0 <= k < |times|
        ensures r.outcomes[k] == Pass
      {
        if k > 0 {
          assert r.outcomes[k] == rest.outcomes[k - 1];
        }
      }
    }
  }

  /** The same calls append one event each, in call order, alternating not
      returned and returned. */
  lemma {:induction false} AlternationRecordsEveryCall(lib: Library, bookId: string, times: seq<Instant>, checkOut: bool, i: nat)
    requires Ready(lib, bookId, i, checkOut)
    ensures AlternatingRun(lib, bookId, times, checkOut).after.events == lib.events + AlternatingEvents(bookId, times, checkOut)
    decreases |times|
  {
    if times == [] {
      assert lib.events + [] == lib.events;
    } else {
      var mid := AlternatingRunStep(lib, bookId, times, checkOut, i);
      AlternationRecordsEveryCall(mid, bookId, times[1..], !checkOut, i);
      AlternatingEventsFirst(lib.events, bookId, times, checkOut);
    }
  }

  /** Events of a run appended after its first event's. */
  lemma AlternatingEventsFirst(events: seq<CheckoutEvent>, bookId: string, times: seq<Instant>, checkOut: bool)
    requires times != []
    ensures (events + [if checkOut then CheckedOutEvent(bookId, times[0]) else CheckedInEvent(bookId, times[0])])
              + AlternatingEvents(bookId, times[1..], !checkOut)
            == events + AlternatingEvents(bookId, times, checkOut)
  {
    var e := if checkOut then CheckedOutEvent(bookId, times[0]) else CheckedInEvent(bookId, times[0]);
    var tail := AlternatingEvents(bookId, times[1..], !checkOut);
    assert AlternatingEvents(bookId, times, checkOut) == [e] + tail;
    assert (events + [e]) + tail == events + ([e] + tail);
  }

  /** The same calls leave the book available exactly when the last call was
      check_in, and every other book unchanged. */
  lemma {:induction false} AlternationFinalFlag(lib: Library, bookId: string, times: seq<Instant>, checkOut: bool, i: nat)
    requires Ready(lib, bookId, i, checkOut)
    ensures AlternatingRun(lib, bookId, times, checkOut).after.books
            == lib.books[i := lib.books[i].(available := Some(checkOut == (|times| % 2 == 0)))]
    decreases |times|
  {
    if times == [] {
      assert AlternatingRun(lib, bookId, times, checkOut).after == lib;
      assert lib.books[i := lib.books[i].(available := Some(checkOut))] == lib.books;
    } else {
      var mid := AlternatingRunStep(lib, bookId, times, checkOut, i);
      AlternationFinalFlag(mid, bookId, times[1..], !checkOut, i);
      FlagAfterFirst(lib.books, mid.books, i, checkOut, times);
    }
  }

  /** Flipping the flag once and then setting it by the parity of the
      remaining calls sets it by the parity of all of them. */
  lemma FlagAfterFirst(books: seq<BookRecord>, mid: seq<BookRecord>, i: nat, checkOut: bool, times: seq<Instant>)
    requires i < |books| && times != []
    requires mid == books[i := books[i].(available := Some(!checkOut))]
    ensures mid[i := mid[i].(available := Some(!checkOut == (|times[1..]| % 2 == 0)))]
            == books[i := books[i].(available := Some(checkOut == (|times| % 2 == 0)))]
  {
    assert (!checkOut == (|times[1..]| % 2 == 0)) == (checkOut == (|times| % 2 == 0));
  }

  /** Appending events of the book itself extends its history by exactly them. */
  lemma HistoryForOwnEvents(events: seq<CheckoutEvent>, es: seq<CheckoutEvent>, bookId: string)
    requires forall k :: 0 <= k < |es| ==> es[k].bookId == bookId
    ensures HistoryFor(events + es, bookId) == HistoryFor(events, bookId) + es
  {
    assert forall k :: 0 <= k < |es| ==> ForBook(bookId)(es[k]);
    FilterKeepsAll(ForBook(bookId), es);
    FilterAppend(ForBook(bookId), events, es);
  }

  /** After n alternating calls the book's history is the history it had
      before followed by the n events they recorded. */
  lemma AlternationHistory(lib: Library, bookId: string, times: seq<Instant>, checkOut: bool, i: nat)
    requires Ready(lib, bookId, i, checkOut)
    ensures HistoryFor(AlternatingRun(lib, bookId, times, checkOut).after.events, bookId)
            == HistoryFor(lib.events, bookId) + AlternatingEvents(bookId, times, checkOut)
  {
    AlternationRecordsEveryCall(lib, bookId, times, checkOut, i);
    HistoryForOwnEvents(lib.events, AlternatingEvents(bookId, times, checkOut), bookId);
  }

  class CheckoutService {
    const bookRepo: MockBookRepo
    const historyRepo: MockCheckoutHistoryRepo

    constructor (bookRepo: MockBookRepo, historyRepo: MockCheckoutHistoryRepo)
      ensures this.bookRepo == bookRepo && this.historyRepo == historyRepo
    {
      this.bookRepo := bookRepo;
      this.historyRepo := historyRepo;
    }

    /** The contents of the two stores. */
    function State(): Library
      reads bookRepo, historyRepo
    {
      Library(bookRepo.books, historyRepo.events)
    }

    /** check_out: look the book up, check it out, persist it, record the event. */
    method CheckOut(bookId: string, now: Instant) returns (r: Outcome)
      modifies bookRepo, historyRepo
      ensures Step(r, State()) == CheckOutStep(old(State()), bookId, now)
    {
      var books := bookRepo.GetAllBooks();
      var found := FirstIndex(HasId(bookId), books);
      if found.None? {
        return Fail(BookNotFound);
      }
      var book := new Book.FromRecord(books[found.value]);
      r := book.CheckOut();
      if r.Fail? {
        return;
      }
      var persisted := bookRepo.UpdateBook(book.Record());
      historyRepo.AddEvent(CheckoutEvent(book.bookId, Some(now), None, false));
    }

    /** check_in: look the book up, check it in, persist it, record the event. */
    method CheckIn(bookId: string, now: Instant) returns (r: Outcome)
      modifies bookRepo, historyRepo
      ensures Step(r, State()) == CheckInStep(old(State()), bookId, now)
    {
      var books := bookRepo.GetAllBooks();
      var found := FirstIndex(HasId(bookId), books);
      if found.None? {
        return Fail(BookNotFound);
      }
      var book := new Book.FromRecord(books[found.value]);
      r := book.CheckIn();
      if r.Fail? {
        return;
      }
      var persisted := bookRepo.UpdateBook(book.Record());
      historyRepo.AddEvent(CheckoutEvent(book.bookId, None, Some(now), true));
    }

    /** get_history_for_book: what the ledger returns. */
    function GetHistoryForBook(bookId: string): (r: seq<CheckoutEvent>)
      reads historyRepo
      ensures r == HistoryFor(historyRepo.events, bookId)
    {
      historyRepo.GetHistoryForBook(bookId)
    }

    /** get_history_all: what the ledger returns. */
    function GetHistoryAll(): (r: seq<CheckoutEvent>)
      reads historyRepo
      ensures r == historyRepo.events
    {
      historyRepo.GetHistoryAll()
    }
  }

  /** test_check_out_book and test_check_in_book
      (tests/services/test_checkout_service.py:9-44), on the stores' contents:
      one fresh book, checked out and then checked in. */
  lemma CheckOutThenCheckInTest(bookId: string, t1: Instant, t2: Instant)
    ensures var lib := Library([NewBook("Test Book", "Author A", bookId)], []);
      var s1 := CheckOutStep(lib, bookId, t1);
      var s2 := CheckInStep(s1.after, bookId, t2);
      && s1.outcome == Pass && s1.after.books[0].available == Some(false)
      && HistoryFor(s1.after.events, bookId) == [CheckedOutEvent(bookId, t1)]
      && s2.outcome == Pass && s2.after.books[0].available == Some(true)
      && HistoryFor(s2.after.events, bookId) == [CheckedOutEvent(bookId, t1), CheckedInEvent(bookId, t2)]
  {
    var lib := Library([NewBook("Test Book", "Author A", bookId)], []);
    FirstMatchAt(lib.books, bookId, 0);
    CheckOutEffect(lib, bookId, t1);
    HistoryForAppend([], CheckedOutEvent(bookId, t1), bookId);
    CheckOutThenCheckInRestores(lib, bookId, t1, t2);
  }

  /** The same tests run against the service and its two stores. `bookId` is
      the uuid the Book's default factory gives the book, so add_book keeps it. */
  method CheckOutThenCheckInScenario(bookId: string, t1: Instant, t2: Instant)
    requires bookId != ""
  {
    var bookRepo := new MockBookRepo();
    var historyRepo := new MockCheckoutHistoryRepo();
    var svc := new CheckoutService(bookRepo, historyRepo);
    var id := bookRepo.AddBook(NewBook("Test Book", "Author A", bookId), "unused");
    assert id == bookId;
    CheckOutThenCheckInTest(id, t1, t2);

    var r := svc.CheckOut(id, t1);
    assert r == Pass;
    assert bookRepo.GetAllBooks()[0].available == Some(false);
    var events := historyRepo.GetHistoryForBook(id);
    assert |events| == 1 && !events[0].returned && events[0].checkoutDate.Some?;

    r := svc.CheckIn(id, t2);
    assert r == Pass;
    assert bookRepo.GetAllBooks()[0].available == Some(true);
    events := historyRepo.GetHistoryForBook(id);
    assert events == [CheckedOutEvent(id, t1), CheckedInEvent(id, t2)];
    assert events[1].returned && events[1].returnDate.Some?;
  }
}
