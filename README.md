# Book checkout, modelled in Dafny

This project models the book-checkout subsystem of a small Python library
manager. It also models the stores that subsystem runs against in the
repository's tests. The model has five parts:

- **`Book` and its availability flag** (`book.dfy`, module `Books`). The
  dataclass's seventeen fields and their defaults are the datatype
  `BookRecord` and the class `Book`. `check_out` and `check_in` are methods of
  that class and change only `available`. `available` is `Option<bool>`, so an
  unset flag behaves as Python's `not None` and `if None` make it behave:
  `check_out` raises and `check_in` succeeds. `to_dict` and `from_dict` map a
  book to and from a field map whose values are JSON-like `Value`s, and
  `from_dict(to_dict(b)) == b` is proved.
- **The in-memory book store** (`book_store.dfy`, `MockBookRepo`). It is a
  `seq` of book records that the methods reassign. It supports append,
  exact-title search, first-match replace by an `enumerate` loop with an
  early return, and delete-all-matching.
- **The two checkout ledgers.**
  - The in-memory ledger (`history_store.dfy`, `MockCheckoutHistoryRepo`)
    provides append, filtering by book, "mark every unreturned event as
    returned" in a loop, and delete-with-count.
  - The file-backed ledger (`history_file.dfy`, `CheckoutHistoryRepository`)
    holds its JSON file as a field: `None` when the file does not exist,
    otherwise the list of stored records. Every call loads the whole file,
    and `add_event` writes it back. Timestamps are encoded to text and
    decoded back, and the round trip is proved for a single date, a single
    event and a whole file. On a file written only by `add_event`,
    `get_history_for_book` returns exactly what the in-memory ledger returns.
- **The checkout coordinator** (`checkout.dfy`, `CheckoutService`). Each
  operation:
  1. finds the first book with the id (`next(...)`, which raises when
     nothing matches);
  2. applies the transition, then persists the book through `update_book`,
     whose result is ignored;
  3. appends one event.

  The service holds the two in-memory stores, as the tests wire it. Each
  method is proved equal to a specification function, `CheckOutStep` or
  `CheckInStep`, over the contents of the two stores. The lemmas about those
  functions cover:
  - when each error occurs, and that a failure writes nothing;
  - the exact effect of a success;
  - first-match behaviour with duplicate ids;
  - other books and their histories staying as they were;
  - history growing by exactly one event per success;
  - check-out followed by check-in;
  - the scenarios of the checkout tests;
  - the two stores agreeing: a book is marked unavailable exactly when its
    history is non-empty and its last event is unreturned. This holds for a
    fresh library and is kept by every call, successful or not;
  - a run of n alternating calls on one book: every call succeeds, and the
    book's history gains n events in call order, alternately unreturned and
    returned.
- **The book service** (`book_service.dfy`, `BookService`). It forwards every
  call to the store. Its one piece of logic, the string check on a title
  query, is modelled with the source's error message.

Shared pieces:
- `common.dfy` holds the option and result types and the failure causes.
  Python exceptions become `Err`/`Fail` values, and StopIteration from the id
  lookup is `BookNotFound`. One cause, `WrongFieldType`, is the model's own:
  `from_dict` rejects a value its typed fields cannot hold, where Python
  stores it unchecked. `Message` gives the source's texts for the two
  availability errors and the query type check, and paraphrases Python's
  messages for the others.
- `seqs.dfy` holds the list idioms the stores are built from: filtering
  comprehensions, `next(...)` lookups and element-wise conversion, with their
  order and partition lemmas.
- The methods `CheckOutThenCheckInScenario` and `BookServiceScenario` replay
  the repository's tests against the classes. Each Python test starts from
  a fresh store, while `BookServiceScenario` runs them in turn on one store.

`datetime.now()` is a parameter `now: Instant`, where `Instant` is a
natural-number tick count. `uuid.uuid4()` is a parameter `freshId`.

## Model

| member | source | states |
|---|---|---|
| `Books.Book.constructor` | src/domain/book.py:5-23 | a new book holds the declared defaults: available, a ratings count of 0, every other optional field unset, the given id |
| `Books.Book.FromRecord` | src/domain/book.py:5-23 | a book object built from field values holds exactly those values |
| `Books.CheckedOut` | src/domain/book.py:25-28 | check_out succeeds iff the flag is True (False and None both raise "already checked out"); on success the flag becomes False and no other field changes |
| `Books.CheckedIn` | src/domain/book.py:30-33 | check_in raises "already available" iff the flag is True; otherwise, from False or None, the flag becomes True and no other field changes |
| `Books.Book.CheckOut` | src/domain/book.py:25-28 | the method changes only `available`, raises exactly when the book is not available and leaves the flag unchanged then, and agrees with `CheckedOut` |
| `Books.Book.CheckIn` | src/domain/book.py:30-33 | the method changes only `available`, raises exactly when the book is available, and agrees with `CheckedIn` |
| `Books.CheckOutThenCheckIn` | src/domain/book.py:25-33 | checking an available book out and back in gives back the same book |
| `Books.UnsetFlagIsCheckedOut` | src/domain/book.py:21-33 | with the flag unset, check_out raises and check_in succeeds and sets it to True |
| `Books.ToDict` | src/domain/book.py:39-58 | to_dict emits exactly the seventeen field names as keys |
| `Books.ToDictFits` | src/domain/book.py:39-58 | every value to_dict emits has the JSON kind its field accepts |
| `Books.FromDict` | src/domain/book.py:35-37 | `Book(**data)` succeeds iff every key is a field, title and author are present and every value fits its field; title and author come from the map; a missing book_id takes the fresh uuid |
| `Books.FromDictToDict` | src/domain/book.py:35-58 | from_dict inverts to_dict: every field of every book comes back unchanged |
| `Books.FromDictDefaults` | src/domain/book.py:35-37 | a map with only title and author builds the same book as the constructor, available and with a ratings count of 0 |
| `BookStore.MockBookRepo.constructor` | tests/mocks/mock_book_repository.py:5-6 | a new store is empty |
| `BookStore.MockBookRepo.GetAllBooks` | tests/mocks/mock_book_repository.py:8-9 | the result equals the stored list, element by element, and reads nothing else |
| `BookStore.MockBookRepo.AddBook` | tests/mocks/mock_book_repository.py:11-15 | the book is appended at the end; it gets the fresh id only when its id is empty; the id it is stored under is returned |
| `BookStore.MockBookRepo.FindBookByName` | tests/mocks/mock_book_repository.py:17-18 | the result holds exactly the stored books whose title equals the query |
| `BookStore.MockBookRepo.UpdateBook` | tests/mocks/mock_book_repository.py:20-25 | the loop returns True iff some book has the id, and the store becomes `UpdatedBooks` of the old store |
| `BookStore.UpdateReplacesFirstMatch` | tests/mocks/mock_book_repository.py:20-25 | update replaces exactly the first entry with the id and keeps the length and every other entry; with no entry with the id the store is unchanged |
| `BookStore.MockBookRepo.DeleteBook` | tests/mocks/mock_book_repository.py:27-30 | the store keeps exactly the books whose id differs, and the result is True iff the store held the id |
| `BookStore.Remaining` | tests/mocks/mock_book_repository.py:27-30 | no book with the deleted id remains |
| `BookStore.RemainingShrinks` | tests/mocks/mock_book_repository.py:27-30 | the store gets shorter iff it held the id |
| `BookStore.RemainingAppend` | tests/mocks/mock_book_repository.py:27-30 | deleting keeps the remaining books in their order |
| `HistoryStore.MockCheckoutHistoryRepo.constructor` | tests/mocks/mock_checkout_history_repository.py:5-6 | a new ledger is empty |
| `HistoryStore.MockCheckoutHistoryRepo.AddEvent` | tests/mocks/mock_checkout_history_repository.py:8-9 | the event is appended; the old events are an unchanged prefix |
| `Events.HistoryFor` | tests/mocks/mock_checkout_history_repository.py:11-12 | a book's history holds exactly the events with its id, and is empty when there are none |
| `Events.HistoryForAppend` | tests/mocks/mock_checkout_history_repository.py:8-12 | appending an event extends its own book's history by that event, in insertion order, and leaves every other history as it was |
| `HistoryStore.MockCheckoutHistoryRepo.GetHistoryForBook` | tests/mocks/mock_checkout_history_repository.py:11-12 | returns the book's history |
| `HistoryStore.MockCheckoutHistoryRepo.GetHistoryAll` | tests/mocks/mock_checkout_history_repository.py:14-15 | returns all events in insertion order, reading nothing else |
| `HistoryStore.MockCheckoutHistoryRepo.UpdateEvent` | tests/mocks/mock_checkout_history_repository.py:17-25 | the loop rewrites each event by `MarkReturned`, keeping the length; the result is True iff some event of the book was unreturned |
| `Events.MarkReturnedOnlyPending` | tests/mocks/mock_checkout_history_repository.py:17-25 | only unreturned events of the book change; they get the flag, and the return date only when one is given; the id and checkout date never change |
| `HistoryStore.MockCheckoutHistoryRepo.DeleteEventsForBook` | tests/mocks/mock_checkout_history_repository.py:27-30 | the ledger keeps exactly the other books' events, and the count is the size of the book's history |
| `HistoryStore.OtherBooks` | tests/mocks/mock_checkout_history_repository.py:27-30 | every kept event belongs to another book, and every other book's event is kept |
| `HistoryStore.OtherBooksCount` | tests/mocks/mock_checkout_history_repository.py:27-30 | the number removed equals the book's history length, and afterwards its history is empty |
| `HistoryStore.OtherBooksKeepsOthers` | tests/mocks/mock_checkout_history_repository.py:27-30 | deleting one book's events leaves every other book's history unchanged, in order |
| `HistoryFile.CheckoutHistoryRepository.constructor` | src/repositories/checkout_history_repository.py:9-10 | the ledger reads the backing file in its current state |
| `HistoryFile.CheckoutHistoryRepository.Load` | src/repositories/checkout_history_repository.py:12-17 | a missing file reads as no records; otherwise the file's records |
| `HistoryFile.CheckoutHistoryRepository.Save` | src/repositories/checkout_history_repository.py:19-21 | the file then holds exactly the given records |
| `HistoryFile.CheckoutHistoryRepository.AddEvent` | src/repositories/checkout_history_repository.py:23-43 | the file holds the old records plus the event's record at the end |
| `HistoryFile.IsoFormat` | src/repositories/checkout_history_repository.py:29-38 | a timestamp is written as non-empty text |
| `HistoryFile.IsoRoundTrip` | src/repositories/checkout_history_repository.py:55-64 | parsing the written text gives back the timestamp |
| `HistoryFile.DateRoundTrip` | src/repositories/checkout_history_repository.py:29-38 | an absent date is stored as null and read back as absent; a present one comes back unchanged |
| `HistoryFile.EventRoundTrip` | src/repositories/checkout_history_repository.py:23-43 | decoding the record add_event writes gives back the event |
| `HistoryFile.DecodeRecordFields` | src/repositories/checkout_history_repository.py:52-66 | a record decodes iff both its dates do, and book_id and returned come back unchanged |
| `HistoryFile.DecodeAll` | src/repositories/checkout_history_repository.py:71-88 | the file decodes iff every record does, to one event per record in the same order |
| `HistoryFile.DecodeAllAppend` | src/repositories/checkout_history_repository.py:71-88 | decoding a concatenation decodes each part in order |
| `HistoryFile.DecodeEncodeAll` | src/repositories/checkout_history_repository.py:71-88 | a file written only by add_event reads back as exactly the events added, in order |
| `HistoryFile.CheckoutHistoryRepository.GetHistoryForBook` | src/repositories/checkout_history_repository.py:45-69 | the loop returns the decoded records of the book in file order, or the first decoding error; it never writes |
| `HistoryFile.HistoryOfEncoded` | src/repositories/checkout_history_repository.py:45-69 | on a file written only by add_event, a book's history equals the in-memory ledger's history of the same events |
| `HistoryFile.HistoryOfAppend` | src/repositories/checkout_history_repository.py:45-69 | adding an event extends its book's file history by that event and leaves the others unchanged |
| `HistoryFile.CheckoutHistoryRepository.GetHistoryAll` | src/repositories/checkout_history_repository.py:71-88 | one event per stored record, same length and order, unless a record fails to decode |
| `Seqs.FirstIndex` | src/services/checkout_service.py:16-17 | the lookup finds the least index whose book has the id, and nothing exactly when no book has it |
| `Checkout.CheckoutService.constructor` | src/services/checkout_service.py:7-13 | the service holds the two stores it is given |
| `Checkout.CheckoutService.CheckOut` | src/services/checkout_service.py:15-27 | the outcome and both stores' new contents are exactly `CheckOutStep` of their old contents |
| `Checkout.CheckOutEffect` | src/services/checkout_service.py:15-27 | not found iff no book has the id; a failure writes nothing; otherwise it fails iff the first match is unavailable; a success marks only that book unavailable and appends one unreturned event dated now |
| `Checkout.CheckoutService.CheckIn` | src/services/checkout_service.py:29-41 | the outcome and both stores' new contents are exactly `CheckInStep` of their old contents |
| `Checkout.CheckInEffect` | src/services/checkout_service.py:29-41 | not found iff no book has the id; a failure writes nothing; otherwise it fails iff the first match is available; a success marks only that book available and appends one returned event with return date now |
| `Checkout.HistoryOnlyGrows` | src/services/checkout_service.py:15-41 | a success appends exactly one event and leaves the earlier ones as an unchanged prefix |
| `Checkout.OtherBooksUntouched` | src/services/checkout_service.py:15-41 | books with another id, and their histories, are unchanged |
| `Checkout.CheckOutThenCheckInRestores` | src/services/checkout_service.py:15-41 | out then in on an available book restores the book store, and the book's history gains the two events in order |
| `Checkout.SecondCheckOutFails` | src/services/checkout_service.py:15-27 | checking out a book twice fails the second time and changes nothing |
| `Checkout.CheckOutThenCheckInTest` | tests/services/test_checkout_service.py:9-44 | a freshly added book checks out (now unavailable, one unreturned event) and then checks in (available again, its history the check-out and the returned check-in events) |
| `Checkout.OutAOutBInA` | tests/services/test_checkout_service.py:46-64 | out A, out B, in A: the three events in call order, two in A's history and one in B's, A available and B not |
| `Checkout.OutAOutB` | tests/services/test_checkout_service.py:66-81 | after two check-outs the full history holds two events, one per book |
| `Checkout.ConsistentInitially` | src/services/checkout_service.py:15-41 | a library whose books are all available and whose ledger is empty has the two stores agreeing for every id |
| `Checkout.CheckOutKeepsConsistent` | src/services/checkout_service.py:15-27 | if the book store's flags agree with the ledger before a check-out, they agree after it, whatever its outcome |
| `Checkout.CheckInKeepsConsistent` | src/services/checkout_service.py:29-41 | if the book store's flags agree with the ledger before a check-in, they agree after it, whatever its outcome |
| `Checkout.AlternatingEvents` | src/services/checkout_service.py:15-41 | the events of an alternating run: one per call, all for the book |
| `Checkout.AlternatingEventsAt` | src/services/checkout_service.py:15-41 | the k-th event of an alternating run is a check-out event dated at the k-th time when that call is a check-out, else a returned event dated then |
| `Checkout.AlternatingStep` | src/services/checkout_service.py:15-41 | a call matching the first match's flag succeeds, flips only that book and appends one event |
| `Checkout.AlternationSucceeds` | src/services/checkout_service.py:15-41 | starting from the matching flag, every call of an alternating run succeeds, one outcome per call |
| `Checkout.AlternationRecordsEveryCall` | src/services/checkout_service.py:15-41 | an alternating run appends exactly its events, in call order, to the ledger |
| `Checkout.AlternationFinalFlag` | src/services/checkout_service.py:15-41 | after an alternating run only the book's flag has changed, and it ends as parity of the run's length says |
| `Checkout.AlternationHistory` | src/services/checkout_service.py:15-41 | after an alternating run the book's history is its old history followed by the run's events |
| `Checkout.CheckoutService.GetHistoryForBook` | src/services/checkout_service.py:43-44 | returns the ledger's history of the book |
| `Checkout.CheckoutService.GetHistoryAll` | src/services/checkout_service.py:46-47 | returns the ledger's full list |
| `BookServices.BookService.constructor` | src/services/book_service.py:5-6 | the service holds the store it is given |
| `BookServices.BookService.GetAllBooks` | src/services/book_service.py:8-9 | the store's books, in order |
| `BookServices.BookService.AddBook` | src/services/book_service.py:11-12 | appends the book, giving it the fresh id only when its id is empty, and returns its stored id |
| `BookServices.BookService.DeleteBook` | src/services/book_service.py:14-15 | removes every book with the id; True iff there was one |
| `BookServices.BookService.UpdateBook` | src/services/book_service.py:17-18 | replaces the first book with the id; True iff there was one |
| `BookServices.BookService.FindBookByName` | src/services/book_service.py:20-23 | a non-string query raises TypeError "Expected str, got something else." and a string query never does; a string query returns exactly the store's title matches |
| `Events.DeclaredConstructor` | src/domain/checkout_history.py:4-9 | the declared event dataclass accepts a call iff every keyword is one of its fields and book_id and checked_out_at are both passed |
| `Events.ServiceEventsRejected` | src/services/checkout_service.py:22-26 | as declared, the dataclass rejects both event constructions the checkout service makes |

## Left out

- File reading and writing and JSON encoding: the file is a field holding the list of records, and `_load`/`_save` read and replace it.
- Malformed files: a file that is not valid JSON, or a record without one of the four keys, is not modelled. Only dates that fail to parse are modelled as errors.
- HistoryFile.IsoFormat: writes a timestamp's tick count in decimal rather than in the ISO 8601 layout. Its inverse accepts exactly the digit strings, so only the round trip is modelled, not the calendar format.
- Books.FromDict: a value of the wrong JSON type (a string for page_count, say) is rejected. Python's `Book(**data)` would store it unchecked, and a typed model cannot hold it.
- Python floats are modelled as reals.
- `datetime.now()` and `uuid.uuid4()` are parameters (`now`, `freshId`), not clocks or randomness.
- Aliasing: the mock book store hands out its own `Book` objects, so `book.check_out()` already changes the stored book. The model stores values, and `update_book` then stores the same updated book, so the end state is the same.
- The in-memory ledger changes stored events in place. The model rewrites them as values in the list.
- The events follow the shape the service and the tests use. The frozen flag of the declared dataclass, which would make `update_event` raise on its first pending event, is not modelled.
- `CheckoutService` is wired to the in-memory stores, as in the tests. The protocol interfaces are not modelled, nor is `mark_returned`, which is declared in the ledger protocol and never implemented.
- The ledger's `filepath` is not modelled: each repository object owns its file contents.
- The interactive console (src/repl.py), the analytics and data-generator services, and the JSON book repository (src/repositories/book_repository.py) are not part of this model. They are console and network I/O, floating-point numerics over numpy, random data generation, and file I/O.

## Findings

| source | as written | input that shows it | evidently intended | confidence | as-written member | corrected member |
|---|---|---|---|---|---|---|
| src/services/checkout_service.py:22-26 | check_out and check_in build `CheckoutEvent(book_id=..., checkout_date=..., returned=...)` and `(..., return_date=..., ...)`. The dataclass in src/domain/checkout_history.py:4-9 has no such keywords and requires `checked_out_at`, so both calls raise TypeError after the book has been persisted. | any successful transition, e.g. check_out of a freshly added book | an event with book_id, an optional checkout date, an optional return date and the returned flag, as the service, both ledgers and the tests read it | high; not executed | `Events.ServiceEventsRejected` | `Checkout.CheckOutEffect` |
