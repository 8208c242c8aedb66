/** The file-backed checkout ledger (src/repositories/checkout_history_repository.py).
    The JSON file is the field `file`: `None` when the file does not exist,
    otherwise the list of records it holds. Every call loads the whole file,
    and add_event writes it back. */
module HistoryFile {
  import opened Common
  import opened Seqs
  import opened Events

  // ---------------------------------------------------------------------------
  // Timestamps as text. `isoformat` is modelled as writing the tick count in
  // decimal and `fromisoformat` as reading it back; both are total on what
  // `isoformat` produces, and reading rejects any other text.

  predicate IsDigit(c: char)
  {
    '0' <= c <= '9'
  }

  function DigitChar(d: nat): (c: char)
    requires d < 10
    ensures IsDigit(c)
  {
    ('0' as int + d) as char
  }

  /** `datetime.isoformat()`: never empty, and made of digits only. */
  function IsoFormat(t: Instant): (s: string)
    ensures |s| > 0
    ensures forall i :: 0 <= i < |s| ==> IsDigit(s[i])
    decreases t
  {
    if t < 10 then [DigitChar(t)] else IsoFormat(t / 10) + [DigitChar(t % 10)]
  }

  function DigitValue(c: char): (d: nat)
    requires IsDigit(c)
    ensures d < 10
  {
    c as int - '0' as int
  }

  /** The number a string of digits denotes. */
  function DigitsValue(s: string): nat
    requires forall i :: 0 <= i < |s| ==> IsDigit(s[i])
  {
    if s == [] then 0
    else 10 * DigitsValue(s[..|s| - 1]) + DigitValue(s[|s| - 1])
  }

  /** `datetime.fromisoformat(s)`: fails on text isoformat cannot produce. */
  function FromIsoFormat(s: string): Option<Instant>
  {
    if s == [] || exists i :: 0 <= i < |s| && !IsDigit(s[i]) then None
    else Some(DigitsValue(s))
  }

  lemma {:induction false} DigitsValueOfIsoFormat(t: Instant)
    ensures DigitsValue(IsoFormat(t)) == t
    decreases t
  {
    if t >= 10 {
      var s := IsoFormat(t);
      DigitsValueOfIsoFormat(t / 10);
      assert s[..|s| - 1] == IsoFormat(t / 10);
    }
  }

  /** fromisoformat inverts isoformat. */
  lemma IsoRoundTrip(t: Instant)
    ensures FromIsoFormat(IsoFormat(t)) == Some(t)
  {
    DigitsValueOfIsoFormat(t);
  }

  // ---------------------------------------------------------------------------
  // Records as stored in the file.

  /** One JSON object of the file; a `None` date is JSON null. */
  datatype StoredRecord = StoredRecord(
    bookId: string,
    checkoutDate: Option<string>,
    returnDate: Option<string>,
    returned: bool)

  /** `d.isoformat() if d else None` (a datetime is always truthy). */
  function EncodeDate(d: Option<Instant>): Option<string>
  {
    match d
    case None => None
    case Some(t) => Some(IsoFormat(t))
  }

  /** `datetime.fromisoformat(v) if v else None`: null and the empty string
      read as no date, other text must parse. */
  function DecodeDate(v: Option<string>): Result<Option<Instant>>
  {
    match v
    case None => Ok(None)
    case Some(s) =>
      if s == [] then Ok(None)
      else match FromIsoFormat(s)
        case None => Err(BadTimestamp(s))
        case Some(t) => Ok(Some(t))
  }

  /** An absent date is stored as null and read back as absent; a present one
      is read back as itself. */
  lemma DateRoundTrip(d: Option<Instant>)
    ensures DecodeDate(EncodeDate(d)) == Ok(d)
  {
    if d.Some? {
      IsoRoundTrip(d.value);
    }
  }

  /** The record add_event appends for an event. */
  function EncodeEvent(e: CheckoutEvent): StoredRecord
  {
    StoredRecord(e.bookId, EncodeDate(e.checkoutDate), EncodeDate(e.returnDate), e.returned)
  }

  /** The event the getters build from a record; a date that does not parse
      raises, as fromisoformat does. */
  function DecodeRecord(r: StoredRecord): Result<CheckoutEvent>
  {
    var checkoutDate :- DecodeDate(r.checkoutDate);
    var returnDate :- DecodeDate(r.returnDate);
    Ok(CheckoutEvent(r.bookId, checkoutDate, returnDate, r.returned))
  }

  /** The book id and the `returned` flag are read back unchanged, and a
      record decodes exactly when both of its dates do. */
  lemma DecodeRecordFields(r: StoredRecord)
    ensures DecodeRecord(r).Ok? <==> DecodeDate(r.checkoutDate).Ok? && DecodeDate(r.returnDate).Ok?
    ensures DecodeRecord(r).Ok? ==> DecodeRecord(r).value.bookId == r.bookId
                                    && DecodeRecord(r).value.returned == r.returned
  {
  }

  /** Writing an event and reading it back gives the same event. */
  lemma EventRoundTrip(e: CheckoutEvent)
    ensures DecodeRecord(EncodeEvent(e)) == Ok(e)
  {
    DateRoundTrip(e.checkoutDate);
    DateRoundTrip(e.returnDate);
  }

  /** Decoding a list of records in order, stopping at the first that fails. */
  function DecodeAll(rs: seq<StoredRecord>): (r: Result<seq<CheckoutEvent>>)
    ensures r.Ok? <==> forall i :: 0 <= i < |rs| ==> DecodeRecord(rs[i]).Ok?
    ensures r.Ok? ==> |r.value| == |rs|
    ensures r.Ok? ==> forall i :: 0 <= i < |rs| ==> DecodeRecord(rs[i]) == Ok(r.value[i])
  {
    if rs == [] then Ok([])
    else match DecodeRecord(rs[0])
      case Err(e) => Err(e)
      case Ok(first) =>
        match DecodeAll(rs[1..])
        case Err(e) => Err(e)
        case Ok(rest) => Ok([first] + rest)
  }

  /** Decoding one record as a list. */
  lemma DecodeAllSingle(r: StoredRecord)
    ensures DecodeAll([r]) ==
      match DecodeRecord(r) case Err(e) => Err(e) case Ok(v) => Ok([v])
  {
    assert [r][1..] == [];
    assert DecodeAll([]) == Ok([]);
    match DecodeRecord(r)
    case Err(_) =>
    case Ok(v) => assert [v] + [] == [v];
  }

  /** Decoding a concatenation decodes the first part, then the second. */
  lemma {:induction false} DecodeAllAppend(s: seq<StoredRecord>, t: seq<StoredRecord>)
    ensures DecodeAll(s + t) ==
      match DecodeAll(s)
      case Err(e) => Err(e)
      case Ok(a) => (match DecodeAll(t) case Err(e) => Err(e) case Ok(b) => Ok(a + b))
  {
    if s == [] {
      assert s + t == t;
      assert DecodeAll(s) == Ok([]);
      match DecodeAll(t)
      case Err(_) =>
      case Ok(b) => assert [] + b == b;
    } else {
      assert (s + t)[0] == s[0];
      assert (s + t)[1..] == s[1..] + t;
      DecodeAllAppend(s[1..], t);
      match DecodeRecord(s[0])
      case Err(_) =>
      case Ok(first) =>
        match DecodeAll(s[1..])
        case Err(_) =>
        case Ok(a) =>
          match DecodeAll(t)
          case Err(_) =>
          case Ok(b) =>
            assert [first] + (a + b) == ([first] + a) + b;
    }
  }

  /** The records add_event writes for a list of events. */
  function EncodeAll(es: seq<CheckoutEvent>): seq<StoredRecord>
  {
    Map(EncodeEvent, es)
  }

  /** A file written only by add_event reads back as exactly the events
      added, in the order they were added. */
  lemma {:induction false} DecodeEncodeAll(es: seq<CheckoutEvent>)
    ensures DecodeAll(EncodeAll(es)) == Ok(es)
  {
    if es != [] {
      DecodeEncodeAll(es[1..]);
      EventRoundTrip(es[0]);
      var rs := EncodeAll(es);
      assert rs[0] == EncodeEvent(es[0]);
      assert rs[1..] == EncodeAll(es[1..]);
      assert DecodeAll(rs) == Ok([es[0]] + es[1..]);
      assert [es[0]] + es[1..] == es;
    }
  }

  /** `e["book_id"] == bookId` on a record. */
  function RecordFor(bookId: string): StoredRecord -> bool
  {
    (r: StoredRecord) => r.bookId == bookId
  }

  /** What get_history_for_book returns for a list of stored records. */
  function HistoryOf(rs: seq<StoredRecord>, bookId: string): Result<seq<CheckoutEvent>>
  {
    DecodeAll(Filter(RecordFor(bookId), rs))
  }

  /** On a file written only by add_event, get_history_for_book returns the
      book's events in the order they were added, as the in-memory ledger does. */
  lemma HistoryOfEncoded(es: seq<CheckoutEvent>, bookId: string)
    ensures HistoryOf(EncodeAll(es), bookId) == Ok(HistoryFor(es, bookId))
  {
    FilterMap(EncodeEvent, ForBook(bookId), RecordFor(bookId), es);
    DecodeEncodeAll(Filter(ForBook(bookId), es));
  }

  /** Appending a record for an event extends that event's book's history by
      the event, and leaves every other book's history as it was. */
  lemma HistoryOfAppend(rs: seq<StoredRecord>, e: CheckoutEvent, bookId: string)
    ensures HistoryOf(rs + [EncodeEvent(e)], bookId) ==
      match HistoryOf(rs, bookId)
      case Err(err) => Err(err)
      case Ok(h) => Ok(if e.bookId == bookId then h + [e] else h)
  {
    FilterSnoc(RecordFor(bookId), rs, EncodeEvent(e));
    var kept := Filter(RecordFor(bookId), rs);
    if e.bookId == bookId {
      DecodeAllAppend(kept, [EncodeEvent(e)]);
      EventRoundTrip(e);
      DecodeAllSingle(EncodeEvent(e));
    } else {
      assert kept + [] == kept;
    }
  }

  class CheckoutHistoryRepository {
    /** The contents of the backing file, or `None` when it does not exist. */
    var file: Option<seq<StoredRecord>>

    /** A ledger over a backing file whose current state is `existing`. */
    constructor (existing: Option<seq<StoredRecord>>)
      ensures file == existing
    {
      file := existing;
    }

    /** `_load`: the records in the file; a missing file reads as empty. */
    function Load(): (r: seq<StoredRecord>)
      reads this
      ensures file.None? ==> r == []
      ensures file.Some? ==> r == file.value
    {
      match file
      case None => []
      case Some(data) => data
    }

    /** `_save`: replaces the file's contents. */
    method Save(data: seq<StoredRecord>)
      modifies this
      ensures file == Some(data)
    {
      file := Some(data);
    }

    /** add_event: load, append the event's record, save. */
    method AddEvent(event: CheckoutEvent)
      modifies this
      ensures file == Some(old(Load()) + [EncodeEvent(event)])
    {
      var data := Load();
      data := data + [EncodeEvent(event)];
      Save(data);
    }

    /** get_history_for_book: walks the records, skipping other books'
        (`continue`) and decoding the book's own, in file order. It never
        writes the file. */
    method GetHistoryForBook(bookId: string) returns (r: Result<seq<CheckoutEvent>>)
      ensures r == HistoryOf(Load(), bookId)
      ensures r.Ok? ==> forall i :: 0 <= i < |r.value| ==> r.value[i].bookId == bookId
    {
      var data := Load();
      var events: seq<CheckoutEvent> := [];
      var i := 0;
      while i < |data|
        invariant 0 <= i <= |data|
        invariant HistoryOf(data[..i], bookId) == Ok(events)
      {
        var e := data[i];
        assert data[..i + 1] == data[..i] + [e];
        FilterSnoc(RecordFor(bookId), data[..i], e);
        ghost var kept := Filter(RecordFor(bookId), data[..i]);
        if e.bookId != bookId {
          assert kept + [] == kept;
          i := i + 1;
          continue;
        }
        var decoded := DecodeRecord(e);
        DecodeAllAppend(kept, [e]);
        DecodeAllSingle(e);
        if decoded.Err? {
          assert data == data[..i + 1] + data[i + 1..];
          FilterAppend(RecordFor(bookId), data[..i + 1], data[i + 1..]);
          DecodeAllAppend(Filter(RecordFor(bookId), data[..i + 1]), Filter(RecordFor(bookId), data[i + 1..]));
          return Err(decoded.error);
        }
        events := events + [decoded.value];
        i := i + 1;
      }
      assert data[..i] == data;
      return Ok(events);
    }

    /** get_history_all: one event per stored record, same length and order. */
    function GetHistoryAll(): (r: Result<seq<CheckoutEvent>>)
      reads this
      ensures r.Ok? <==> forall i :: 0 <= i < |Load()| ==> DecodeRecord(Load()[i]).Ok?
      ensures r.Ok? ==> |r.value| == |Load()|
      ensures r.Ok? ==> forall i :: 0 <= i < |Load()| ==> DecodeRecord(Load()[i]) == Ok(r.value[i])
    {
      DecodeAll(Load())
    }
  }
}
