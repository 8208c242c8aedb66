/** Values shared by every part of the checkout model: optional values, the
    failures the model reports where the Python code raises, and results that
    carry them. */
module Common {

  datatype Option<+T> = None | Some(value: T)

  /** Why an operation fails. Every constructor but WrongFieldType stands for
      an exception the modelled code raises; WrongFieldType is the model's own
      rejection of a value its typed fields cannot hold. */
  datatype Error =
    | BookNotFound                   // `next(...)` over the books finds no match (StopIteration)
    | AlreadyCheckedOut              // Book.check_out on a book that is not available
    | AlreadyAvailable               // Book.check_in on a book that is available
    | TypeError(message: string)     // BookService.find_book_by_name with a non-string query
    | UnexpectedField                // Book(**data) with a key that is not a field
    | MissingField(name: string)     // Book(**data) without a required field
    | WrongFieldType(name: string)   // the model's own: Book(**data) stores such a value unchecked
    | BadTimestamp(text: string)     // datetime.fromisoformat on text it cannot parse

  /** A text for each failure. The two Book transitions and the service's
      query check carry the source's own texts; the others paraphrase
      Python's messages, and the failed lookup carries none. */
  function Message(e: Error): string
  {
    match e
    case BookNotFound => ""
    case AlreadyCheckedOut => "Book is already checked out."
    case AlreadyAvailable => "Book is already available."
    case TypeError(m) => m
    case UnexpectedField => "unexpected keyword argument"
    case MissingField(n) => "missing required argument: " + n
    case WrongFieldType(n) => "wrong type for field: " + n
    case BadTimestamp(t) => "Invalid isoformat string: " + t
  }

  datatype Result<+T> = Ok(value: T) | Err(error: Error) {
    predicate IsFailure() { Err? }

    function PropagateFailure<U>(): Result<U>
      requires Err?
    {
      Err(error)
    }

    function Extract(): T
      requires Ok?
    {
      value
    }
  }

  /** The result of an operation that returns nothing (`-> None`) but may raise. */
  datatype Outcome = Pass | Fail(error: Error)
}
