/** The `Book` dataclass (src/domain/book.py): its fields and their defaults,
    the availability state machine of check_out/check_in, and the field-map
    round trip of to_dict/from_dict. */
module Books {
  import opened Common
  import opened Seqs

  /** A field value as it appears in the dictionary to_dict builds and
      from_dict consumes (the JSON value kinds the book file holds). */
  datatype Value = VNull | VBool(b: bool) | VInt(i: int) | VReal(x: real) | VStr(s: string)

  /** The values of one Book's fields, in the dataclass's declaration order.
      Python floats are modelled as reals. */
  datatype BookRecord = BookRecord(
    title: string,
    author: string,
    genre: Option<int>,
    publicationYear: Option<int>,
    pageCount: Option<int>,
    averageRating: Option<real>,
    ratingsCount: Option<int>,
    priceUsd: Option<real>,
    publisher: Option<string>,
    language: Option<string>,
    format: Option<string>,
    inPrint: Option<bool>,
    salesMillions: Option<real>,
    lastCheckout: Option<string>,
    available: Option<bool>,
    publisherEmail: Option<string>,
    bookId: string)

  /** `Book(title=..., author=...)`: every optional field takes its declared
      default; `bookId` stands for the uuid4 the default factory would draw. */
  function NewBook(title: string, author: string, bookId: string): BookRecord
  {
    BookRecord(title, author, None, None, None, None, Some(0), None, None, None,
               None, None, None, None, Some(true), None, bookId)
  }

  /** Python truthiness of an `Optional[bool]`: only `True` is truthy. */
  predicate Truthy(flag: Option<bool>)
  {
    flag == Some(true)
  }

  /** Book.check_out on a value: raises unless the book is available, and
      otherwise only marks it unavailable. */
  function CheckedOut(b: BookRecord): (r: Result<BookRecord>)
    ensures r.Ok? <==> b.available == Some(true)
    ensures r.Err? ==> r.error == AlreadyCheckedOut
    ensures r.Ok? ==> r.value.available == Some(false) && r.value.(available := b.available) == b
  {
    if !Truthy(b.available) then Err(AlreadyCheckedOut)
    else Ok(b.(available := Some(false)))
  }

  /** Book.check_in on a value: raises when the book is available, and
      otherwise (flag false or None) only marks it available. */
  function CheckedIn(b: BookRecord): (r: Result<BookRecord>)
    ensures r.Ok? <==> b.available != Some(true)
    ensures r.Err? ==> r.error == AlreadyAvailable
    ensures r.Ok? ==> r.value.available == Some(true) && r.value.(available := b.available) == b
  {
    if Truthy(b.available) then Err(AlreadyAvailable)
    else Ok(b.(available := Some(true)))
  }

  /** A fresh book can be checked out, and checking it back in restores it. */
  lemma CheckOutThenCheckIn(b: BookRecord)
    requires b.available == Some(true)
    ensures CheckedOut(b).Ok? && CheckedIn(CheckedOut(b).value) == Ok(b)
  {
  }

  /** An unset flag behaves as "checked out": check_out raises, check_in
      succeeds and sets the flag to true. */
  lemma UnsetFlagIsCheckedOut(b: BookRecord)
    requires b.available == None
    ensures CheckedOut(b) == Err(AlreadyCheckedOut)
    ensures CheckedIn(b).Ok? && CheckedIn(b).value.available == Some(true)
  {
  }

  /** The keys to_dict emits, which are also the dataclass's field names. */
  const FieldNames: set<string> := {
    "book_id", "title", "author", "genre", "publication_year", "page_count",
    "average_rating", "ratings_count", "price_usd", "publisher", "language",
    "format", "in_print", "sales_millions", "last_checkout", "available",
    "publisher_email"
  }

  function IntValue(v: Option<int>): Value
  {
    match v case None => VNull case Some(i) => VInt(i)
  }

  function RealValue(v: Option<real>): Value
  {
    match v case None => VNull case Some(x) => VReal(x)
  }

  function StrValue(v: Option<string>): Value
  {
    match v case None => VNull case Some(s) => VStr(s)
  }

  function BoolValue(v: Option<bool>): Value
  {
    match v case None => VNull case Some(b) => VBool(b)
  }

  /** The value to_dict emits under one field name. */
  function FieldValue(b: BookRecord, key: string): Value
  {
    match key
    case "book_id" => VStr(b.bookId)
    case "title" => VStr(b.title)
    case "author" => VStr(b.author)
    case "genre" => IntValue(b.genre)
    case "publication_year" => IntValue(b.publicationYear)
    case "page_count" => IntValue(b.pageCount)
    case "average_rating" => RealValue(b.averageRating)
    case "ratings_count" => IntValue(b.ratingsCount)
    case "price_usd" => RealValue(b.priceUsd)
    case "publisher" => StrValue(b.publisher)
    case "language" => StrValue(b.language)
    case "format" => StrValue(b.format)
    case "in_print" => BoolValue(b.inPrint)
    case "sales_millions" => RealValue(b.salesMillions)
    case "last_checkout" => StrValue(b.lastCheckout)
    case "available" => BoolValue(b.available)
    case "publisher_email" => StrValue(b.publisherEmail)
    case _ => VNull
  }

  /** Book.to_dict: every field under its constructor name. */
  function ToDict(b: BookRecord): (d: map<string, Value>)
    ensures d.Keys == FieldNames
  {
    map key | key in FieldNames :: FieldValue(b, key)
  }

  /** The annotated type of each field, as far as a JSON value can show it. */
  datatype Kind = Text | OptInt | OptReal | OptText | OptBool

  function FieldKind(key: string): Kind
  {
    match key
    case "book_id" => Text
    case "title" => Text
    case "author" => Text
    case "genre" => OptInt
    case "publication_year" => OptInt
    case "page_count" => OptInt
    case "average_rating" => OptReal
    case "ratings_count" => OptInt
    case "price_usd" => OptReal
    case "sales_millions" => OptReal
    case "in_print" => OptBool
    case "available" => OptBool
    case _ => OptText
  }

  /** A value fits a field when its JSON kind matches the annotation; a float
      field also takes a JSON integer. */
  predicate Fits(kind: Kind, v: Value)
  {
    match kind
    case Text => v.VStr?
    case OptInt => v.VNull? || v.VInt?
    case OptReal => v.VNull? || v.VReal? || v.VInt?
    case OptText => v.VNull? || v.VStr?
    case OptBool => v.VNull? || v.VBool?
  }

  /** The field names in declaration order, the order fields are checked in. */
  const FieldOrder: seq<string> := [
    "title", "author", "genre", "publication_year", "page_count",
    "average_rating", "ratings_count", "price_usd", "publisher", "language",
    "format", "in_print", "sales_millions", "last_checkout", "available",
    "publisher_email", "book_id"
  ]

  /** Whether `d` holds a value under `key` that does not fit the field. */
  function Misfit(d: map<string, Value>): string -> bool
  {
    key => key in d && !Fits(FieldKind(key), d[key])
  }

  function TextAt(d: map<string, Value>, key: string, default: string): string
  {
    if key in d && d[key].VStr? then d[key].s else default
  }

  /** An optional field: an absent key takes the default, JSON null is None. */
  function IntAt(d: map<string, Value>, key: string, default: Option<int>): Option<int>
  {
    if key !in d then default
    else match d[key] case VInt(i) => Some(i) case _ => None
  }

  function RealAt(d: map<string, Value>, key: string): Option<real>
  {
    if key !in d then None
    else match d[key] case VReal(x) => Some(x) case VInt(i) => Some(i as real) case _ => None
  }

  function OptTextAt(d: map<string, Value>, key: string): Option<string>
  {
    if key !in d then None
    else match d[key] case VStr(s) => Some(s) case _ => None
  }

  function BoolAt(d: map<string, Value>, key: string, default: Option<bool>): Option<bool>
  {
    if key !in d then default
    else match d[key] case VBool(b) => Some(b) case _ => None
  }

  /** The book `Book(**d)` constructs once `d` is known to be well formed. */
  function Build(d: map<string, Value>, freshId: string): BookRecord
  {
    BookRecord(
      TextAt(d, "title", ""), TextAt(d, "author", ""),
      IntAt(d, "genre", None), IntAt(d, "publication_year", None), IntAt(d, "page_count", None),
      RealAt(d, "average_rating"), IntAt(d, "ratings_count", Some(0)), RealAt(d, "price_usd"),
      OptTextAt(d, "publisher"), OptTextAt(d, "language"), OptTextAt(d, "format"),
      BoolAt(d, "in_print", None), RealAt(d, "sales_millions"), OptTextAt(d, "last_checkout"),
      BoolAt(d, "available", Some(true)), OptTextAt(d, "publisher_email"),
      TextAt(d, "book_id", freshId))
  }

  /** Book.from_dict, i.e. `Book(**data)`: an unknown key or a missing title
      or author raises; an absent optional key takes the field's default and an
      absent "book_id" takes `freshId` (the uuid4 default factory). */
  function FromDict(d: map<string, Value>, freshId: string): (r: Result<BookRecord>)
    ensures r.Ok? <==> d.Keys <= FieldNames && "title" in d && "author" in d
                       && forall key :: key in d ==> Fits(FieldKind(key), d[key])
    ensures r.Ok? ==> r.value.title == d["title"].s && r.value.author == d["author"].s
    ensures r.Ok? && "book_id" !in d ==> r.value.bookId == freshId
  {
    if !(d.Keys <= FieldNames) then Err(UnexpectedField)
    else if "title" !in d then Err(MissingField("title"))
    else if "author" !in d then Err(MissingField("author"))
    else match FirstIndex(Misfit(d), FieldOrder)
      case Some(i) => Err(WrongFieldType(FieldOrder[i]))
      case None =>
        assert forall key :: key in d ==> key in FieldOrder;
        Ok(Build(d, freshId))
  }

  /** to_dict holds, under each field name, that field's value. */
  lemma ToDictAt(b: BookRecord, key: string)
    requires key in FieldNames
    ensures key in ToDict(b) && ToDict(b)[key] == FieldValue(b, key)
  {
  }

  /** Every value to_dict emits fits its field. */
  lemma ToDictFits(b: BookRecord)
    ensures forall key :: key in ToDict(b) ==> Fits(FieldKind(key), ToDict(b)[key])
  {
  }

  /** from_dict inverts to_dict: every field comes back as it was, whatever
      id a missing "book_id" would have drawn. */
  lemma FromDictToDict(b: BookRecord, freshId: string)
    ensures FromDict(ToDict(b), freshId) == Ok(b)
  {
    var d := ToDict(b);
    ToDictFits(b);
    WellFormedFromDict(d, freshId);
    BuildToDict(b, freshId);
  }

  /** A map of known fields, with title and author, each fitting its field,
      is accepted. */
  lemma WellFormedFromDict(d: map<string, Value>, freshId: string)
    requires d.Keys <= FieldNames && "title" in d && "author" in d
    requires forall key :: key in d ==> Fits(FieldKind(key), d[key])
    ensures FromDict(d, freshId) == Ok(Build(d, freshId))
  {
    assert forall j :: 0 <= j < |FieldOrder| ==> !Misfit(d)(FieldOrder[j]);
  }
  /** Reading every field back out of to_dict's map gives the book. */
  lemma BuildToDict(b: BookRecord, freshId: string)
    ensures Build(ToDict(b), freshId) == b
  {
    ReadBackIdentity(b, ToDict(b), freshId);
    ReadBackCounts(b, ToDict(b), freshId);
    ReadBackAmounts(b, ToDict(b), freshId);
    ReadBackTexts(b, ToDict(b), freshId);
    ReadBackFlags(b, ToDict(b), freshId);
  }

  lemma ReadBackIdentity(b: BookRecord, d: map<string, Value>, freshId: string)
    requires d == ToDict(b)
    ensures TextAt(d, "title", "") == b.title
    ensures TextAt(d, "author", "") == b.author
    ensures TextAt(d, "book_id", freshId) == b.bookId
  {
    ToDictAt(b, "title");
    ToDictAt(b, "author");
    ToDictAt(b, "book_id");
  }

  lemma ReadBackCounts(b: BookRecord, d: map<string, Value>, freshId: string)
    requires d == ToDict(b)
    ensures IntAt(d, "genre", None) == b.genre
    ensures IntAt(d, "publication_year", None) == b.publicationYear
    ensures IntAt(d, "page_count", None) == b.pageCount
    ensures IntAt(d, "ratings_count", Some(0)) == b.ratingsCount
  {
    ToDictAt(b, "genre");
    ToDictAt(b, "publication_year");
    ToDictAt(b, "page_count");
    ToDictAt(b, "ratings_count");
  }

  lemma ReadBackAmounts(b: BookRecord, d: map<string, Value>, freshId: string)
    requires d == ToDict(b)
    ensures RealAt(d, "average_rating") == b.averageRating
    ensures RealAt(d, "price_usd") == b.priceUsd
    ensures RealAt(d, "sales_millions") == b.salesMillions
  {
    ToDictAt(b, "average_rating");
    ToDictAt(b, "price_usd");
    ToDictAt(b, "sales_millions");
  }

  lemma ReadBackTexts(b: BookRecord, d: map<string, Value>, freshId: string)
    requires d == ToDict(b)
    ensures OptTextAt(d, "publisher") == b.publisher
    ensures OptTextAt(d, "language") == b.language
    ensures OptTextAt(d, "format") == b.format
  {
    ToDictAt(b, "publisher");
    ToDictAt(b, "language");
    ToDictAt(b, "format");
  }

  lemma ReadBackFlags(b: BookRecord, d: map<string, Value>, freshId: string)
    requires d == ToDict(b)
    ensures OptTextAt(d, "last_checkout") == b.lastCheckout
    ensures OptTextAt(d, "publisher_email") == b.publisherEmail
    ensures BoolAt(d, "in_print", None) == b.inPrint
    ensures BoolAt(d, "available", Some(true)) == b.available
  {
    ToDictAt(b, "last_checkout");
    ToDictAt(b, "publisher_email");
    ToDictAt(b, "in_print");
    ToDictAt(b, "available");
  }

  /** from_dict with only a title and an author builds the same book as the
      constructor with its defaults: available and with no ratings. */
  lemma FromDictDefaults(title: string, author: string, freshId: string)
    ensures FromDict(map["title" := VStr(title), "author" := VStr(author)], freshId)
            == Ok(NewBook(title, author, freshId))
    ensures NewBook(title, author, freshId).available == Some(true)
    ensures NewBook(title, author, freshId).ratingsCount == Some(0)
  {
    var d := map["title" := VStr(title), "author" := VStr(author)];
    assert d.Keys <= FieldNames by {
      assert d.Keys == {"title", "author"};
    }
    WellFormedFromDict(d, freshId);
    DefaultsAbsent(d, title, author, freshId);
  }

  /** The optional fields of a title-and-author map all take their defaults. */
  lemma DefaultsAbsent(d: map<string, Value>, title: string, author: string, freshId: string)
    requires d == map["title" := VStr(title), "author" := VStr(author)]
    ensures Build(d, freshId) == NewBook(title, author, freshId)
  {
    assert "genre" !in d;
    assert "publication_year" !in d;
    assert "page_count" !in d;
    assert "average_rating" !in d;
    assert "ratings_count" !in d;
    assert "price_usd" !in d;
    assert "publisher" !in d;
    assert "language" !in d;
    assert "format" !in d;
    assert "in_print" !in d;
    assert "sales_millions" !in d;
    assert "last_checkout" !in d;
    assert "available" !in d;
    assert "publisher_email" !in d;
    assert "book_id" !in d;
  }

  /** A Book object. Its fields are the dataclass's fields; check_out and
      check_in change `available` and nothing else. */
  class Book {
    var title: string
    var author: string
    var genre: Option<int>
    var publicationYear: Option<int>
    var pageCount: Option<int>
    var averageRating: Option<real>
    var ratingsCount: Option<int>
    var priceUsd: Option<real>
    var publisher: Option<string>
    var language: Option<string>
    var format: Option<string>
    var inPrint: Option<bool>
    var salesMillions: Option<real>
    var lastCheckout: Option<string>
    var available: Option<bool>
    var publisherEmail: Option<string>
    var bookId: string

    /** The object's field values. */
    function Record(): BookRecord
      reads this
    {
      BookRecord(title, author, genre, publicationYear, pageCount, averageRating,
                 ratingsCount, priceUsd, publisher, language, format, inPrint,
                 salesMillions, lastCheckout, available, publisherEmail, bookId)
    }

    /** `Book(title=..., author=...)` with `bookId` as the drawn uuid. */
    constructor (title: string, author: string, bookId: string)
      ensures Record() == NewBook(title, author, bookId)
      ensures available == Some(true) && ratingsCount == Some(0)
    {
      this.title, this.author := title, author;
      genre, publicationYear, pageCount, averageRating := None, None, None, None;
      ratingsCount, priceUsd, publisher, language := Some(0), None, None, None;
      format, inPrint, salesMillions, lastCheckout := None, None, None, None;
      available, publisherEmail, this.bookId := Some(true), None, bookId;
    }

    /** A Book object holding the given field values (`Book(**fields)`). */
    constructor FromRecord(r: BookRecord)
      ensures Record() == r
    {
      title, author, genre, publicationYear := r.title, r.author, r.genre, r.publicationYear;
      pageCount, averageRating, ratingsCount := r.pageCount, r.averageRating, r.ratingsCount;
      priceUsd, publisher, language, format := r.priceUsd, r.publisher, r.language, r.format;
      inPrint, salesMillions, lastCheckout := r.inPrint, r.salesMillions, r.lastCheckout;
      available, publisherEmail, bookId := r.available, r.publisherEmail, r.bookId;
    }

    /** Book.check_out. */
    method CheckOut() returns (r: Outcome)
      modifies this`available
      ensures old(available) == Some(true) ==> r == Pass && available == Some(false)
      ensures old(available) != Some(true) ==> r == Fail(AlreadyCheckedOut) && available == old(available)
      ensures CheckedOut(old(Record())) == if r.Pass? then Ok(Record()) else Err(r.error)
    {
      if !Truthy(available) {
        return Fail(AlreadyCheckedOut);
      }
      available := Some(false);
      return Pass;
    }

    /** Book.check_in. */
    method CheckIn() returns (r: Outcome)
      modifies this`available
      ensures old(available) != Some(true) ==> r == Pass && available == Some(true)
      ensures old(available) == Some(true) ==> r == Fail(AlreadyAvailable) && available == old(available)
      ensures CheckedIn(old(Record())) == if r.Pass? then Ok(Record()) else Err(r.error)
    {
      if Truthy(available) {
        return Fail(AlreadyAvailable);
      }
      available := Some(true);
      return Pass;
    }
  }
}
