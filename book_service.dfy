/** The book service (src/services/book_service.py): a thin layer over the
    book store that forwards every call, and rejects a non-string title query. */
module BookServices {
  import opened Common
  import opened Books
  import opened BookStore

  class BookService {
    const repo: MockBookRepo

    constructor (repo: MockBookRepo)
      ensures this.repo == repo
    {
      this.repo := repo;
    }

    /** get_all_books: the stored books, in order. */
    function GetAllBooks(): (r: seq<BookRecord>)
      reads repo
      ensures |r| == |repo.books| && forall i :: 0 <= i < |r| ==> r[i] == repo.books[i]
    {
      repo.GetAllBooks()
    }

    /** add_book: stores the book and returns the id it is stored under. */
    method AddBook(book: BookRecord, freshId: string) returns (bookId: string)
      modifies repo
      ensures bookId == if book.bookId == "" then freshId else book.bookId
      ensures repo.books == old(repo.books) + [book.(bookId := bookId)]
    {
      bookId := repo.AddBook(book, freshId);
    }

    /** delete_book: removes every book with the id; True iff there was one.
        The source annotates the parameter as a Book and the result as a str,
        but it forwards an id and returns the store's bool, as the tests use it. */
    method DeleteBook(bookId: string) returns (removed: bool)
      modifies repo
      ensures repo.books == Remaining(old(repo.books), bookId)
      ensures removed <==> Contains(old(repo.books), bookId)
    {
      removed := repo.DeleteBook(bookId);
    }

    /** update_book: replaces the first book with the same id; True iff there was one. */
    method UpdateBook(book: BookRecord) returns (found: bool)
      modifies repo
      ensures found <==> Contains(old(repo.books), book.bookId)
      ensures repo.books == UpdatedBooks(old(repo.books), book)
    {
      found := repo.UpdateBook(book);
    }

    /** find_book_by_name: a query that is not a string raises TypeError with
        the source's message; a string query returns exactly the books with
        that title, in store order. */
    function FindBookByName(query: Value): (r: Result<seq<BookRecord>>)
      reads repo
      ensures r.Err? <==> !query.VStr?
      ensures r.Err? ==> r.error == TypeError("Expected str, got something else.")
      ensures r.Ok? ==> forall i :: 0 <= i < |r.value| ==> r.value[i].title == query.s && r.value[i] in repo.books
      ensures r.Ok? ==> forall i :: 0 <= i < |repo.books| && repo.books[i].title == query.s ==> repo.books[i] in r.value
    {
      if !query.VStr? then Err(TypeError("Expected str, got something else."))
      else Ok(repo.FindBookByName(query.s))
    }
  }

  /** The book-service tests (tests/services/test_book_service.py:7-78), run
      against the service. Each Python test starts from a fresh store; here
      they run in turn on one store, ordered so that every check sees the
      store its test builds. `drawn` is the uuid the Book's default factory
      gives the new book, so add_book keeps it and draws no id of its own. */
  method BookServiceScenario(drawn: string)
    requires drawn != ""
  {
    var repo := new MockBookRepo();
    var svc := new BookService(repo);

    var id := svc.AddBook(NewBook("New Book", "Author A", drawn), "unused");
    assert id == drawn;
    var books := svc.GetAllBooks();
    assert |books| == 1 && books[0].bookId == id && books[0].title == "New Book";

    var found := svc.FindBookByName(VStr("New Book"));
    assert found.Ok? && |found.value| == 1 && found.value[0].author == "Author A";

    var bad := svc.FindBookByName(VInt(123));
    assert bad == Err(TypeError("Expected str, got something else."));

    var renamed := books[0].(title := "Updated Title");
    var updated := svc.UpdateBook(renamed);
    assert updated;
    assert svc.GetAllBooks()[0].title == "Updated Title";

    var removed := svc.DeleteBook(id);
    assert removed;
    assert svc.GetAllBooks() == [];

    var missing := svc.UpdateBook(NewBook("Fake", "No One", "nonexistent"));
    assert !missing;

    removed := svc.DeleteBook("fake_id");
    assert !removed;
  }
}
