/** The in-memory book store the services run against
    (tests/mocks/mock_book_repository.py): a list of books with append,
    exact-title search, first-match replace and delete-all-matching. */
module BookStore {
  import opened Common
  import opened Seqs
  import opened Books

  /** `b.book_id == bookId`. */
  function HasId(bookId: string): BookRecord -> bool
  {
    (b: BookRecord) => b.bookId == bookId
  }

  /** `b.title == title`. */
  function HasTitle(title: string): BookRecord -> bool
  {
    (b: BookRecord) => b.title == title
  }

  /** Whether some stored book has the id. */
  predicate Contains(books: seq<BookRecord>, bookId: string)
  {
    exists i :: 0 <= i < |books| && books[i].bookId == bookId
  }

  /** The store after update_book(updated): the first book with the same id is
      replaced, and with no such book the store is as it was. */
  function UpdatedBooks(books: seq<BookRecord>, updated: BookRecord): seq<BookRecord>
  {
    match FirstIndex(HasId(updated.bookId), books)
    case None => books
    case Some(i) => books[i := updated]
  }

  /** update_book replaces exactly the first entry with the id and keeps the
      length and every other entry; with no entry with the id it changes nothing. */
  lemma UpdateReplacesFirstMatch(books: seq<BookRecord>, updated: BookRecord)
    ensures |UpdatedBooks(books, updated)| == |books|
    ensures !Contains(books, updated.bookId) ==> UpdatedBooks(books, updated) == books
    ensures Contains(books, updated.bookId) ==>
      exists i :: 0 <= i < |books| && books[i].bookId == updated.bookId
        && (forall j :: 0 <= j < i ==> books[j].bookId != updated.bookId)
        && UpdatedBooks(books, updated) == books[i := updated]
  {
    match FirstIndex(HasId(updated.bookId), books)
    case None =>
    case Some(i) =>
  }

  /** The books delete_book keeps: all whose id differs, in store order. */
  function Remaining(books: seq<BookRecord>, bookId: string): (r: seq<BookRecord>)
    ensures forall i :: 0 <= i < |r| ==> r[i].bookId != bookId
  {
    Filter(Not(HasId(bookId)), books)
  }

  /** delete_book reports a deletion exactly when the store held the id. */
  lemma RemainingShrinks(books: seq<BookRecord>, bookId: string)
    ensures |Remaining(books, bookId)| < |books| <==> Contains(books, bookId)
  {
    FilterShrinks(Not(HasId(bookId)), books);
  }

  /** Deleting keeps the other books in order: deleting from a concatenation
      deletes from each part. */
  lemma RemainingAppend(s: seq<BookRecord>, t: seq<BookRecord>, bookId: string)
    ensures Remaining(s + t, bookId) == Remaining(s, bookId) + Remaining(t, bookId)
  {
    FilterAppend(Not(HasId(bookId)), s, t);
  }

  class MockBookRepo {
    var books: seq<BookRecord>

    constructor ()
      ensures books == []
    {
      books := [];
    }

    /** get_all_books: a copy of the stored list. */
    function GetAllBooks(): (r: seq<BookRecord>)
      reads this
      ensures |r| == |books| && forall i :: 0 <= i < |r| ==> r[i] == books[i]
    {
      books
    }

    /** add_book: appends the book, first giving it `freshId` (the uuid4 drawn)
        when its id is empty, and returns the id it is stored under. */
    method AddBook(book: BookRecord, freshId: string) returns (bookId: string)
      modifies this
      ensures bookId == if book.bookId == "" then freshId else book.bookId
      ensures books == old(books) + [book.(bookId := bookId)]
    {
      var stored := book;
      if stored.bookId == "" {
        stored := stored.(bookId := freshId);
      }
      books := books + [stored];
      return stored.bookId;
    }

    /** find_book_by_name: the books whose title is exactly `query`, in order. */
    function FindBookByName(query: string): (r: seq<BookRecord>)
      reads this
      ensures forall i :: 0 <= i < |r| ==> r[i].title == query && r[i] in books
      ensures forall i :: 0 <= i < |books| && books[i].title == query ==> books[i] in r
    {
      Filter(HasTitle(query), books)
    }

    /** update_book: scans for the first book with the same id, replaces it
        and returns True; returns False when there is none. */
    method UpdateBook(updated: BookRecord) returns (found: bool)
      modifies this
      ensures found <==> Contains(old(books), updated.bookId)
      ensures books == UpdatedBooks(old(books), updated)
    {
      var i := 0;
      while i < |books|
        invariant 0 <= i <= |books|
        invariant books == old(books)
        invariant forall j :: 0 <= j < i ==> books[j].bookId != updated.bookId
      {
        if books[i].bookId == updated.bookId {
          assert FirstIndex(HasId(updated.bookId), books) == Some(i);
          books := books[i := updated];
          return true;
        }
        i := i + 1;
      }
      return false;
    }

    /** delete_book: drops every book with the id, and returns True exactly
        when the list got shorter. */
    method DeleteBook(bookId: string) returns (removed: bool)
      modifies this
      ensures books == Remaining(old(books), bookId)
      ensures removed <==> Contains(old(books), bookId)
    {
      var initialLen := |books|;
      books := Remaining(books, bookId);
      removed := |books| < initialLen;
      RemainingShrinks(old(books), bookId);
    }
  }
}
