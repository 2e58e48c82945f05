/** The reservation store: reservations.json holds a flat list of
    five-field records. An absent file reads as an empty list, so no
    operation here fails. */
module Reservations {
  import opened Outcomes
  import opened Lists

  /** One entry of reservations.json; checkOutDate is None when no check-out date was given. */
  datatype ReservationRecord = ReservationRecord(
    customerName: string,
    hotelName: string,
    roomNumber: int,
    checkInDate: string,
    checkOutDate: Option<string>)

  /** A Reservation object, as create_reservation returns it and as a Hotel holds it.
      Python compares these objects by identity, and so does Dafny for class references. */
  class Reservation {
    const customerName: string
    const hotelName: string
    const roomNumber: int
    const checkInDate: string
    const checkOutDate: Option<string>

    constructor (customerName: string, hotelName: string, roomNumber: int,
                 checkInDate: string, checkOutDate: Option<string>)
      ensures Record() == ReservationRecord(customerName, hotelName, roomNumber, checkInDate, checkOutDate)
    {
      this.customerName := customerName;
      this.hotelName := hotelName;
      this.roomNumber := roomNumber;
      this.checkInDate := checkInDate;
      this.checkOutDate := checkOutDate;
    }

    /** The record create_reservation writes for this object. */
    function Record(): ReservationRecord {
      ReservationRecord(customerName, hotelName, roomNumber, checkInDate, checkOutDate)
    }
  }

  /** The composite key cancel_reservation matches on; the check-out date plays no part. */
  predicate HasKey(r: ReservationRecord, customerName: string, hotelName: string,
                   roomNumber: int, checkInDate: string)
  {
    && r.customerName == customerName
    && r.hotelName == hotelName
    && r.roomNumber == roomNumber
    && r.checkInDate == checkInDate
  }

  function Key(customerName: string, hotelName: string, roomNumber: int, checkInDate: string)
    : ReservationRecord -> bool
  {
    (r: ReservationRecord) => HasKey(r, customerName, hotelName, roomNumber, checkInDate)
  }

  /** The list cancel_reservation writes back: the first record with the key found by the
      search, then taken out with list.remove; None when no record has the key. */
  function Cancelled(s: seq<ReservationRecord>, customerName: string, hotelName: string,
                     roomNumber: int, checkInDate: string)
    : (r: Option<seq<ReservationRecord>>)
    ensures r.None? <==>
      forall j :: 0 <= j < |s| ==> !HasKey(s[j], customerName, hotelName, roomNumber, checkInDate)
    ensures r.Some? ==> |r.value| == |s| - 1
  {
    match FirstMatch(s, Key(customerName, hotelName, roomNumber, checkInDate))
    case None => None
    case Some(i) => Some(RemoveFirst(s, s[i]))
  }

  /** Removing the found record by equality takes out exactly the first record with the key:
      no earlier record can equal it, since an equal record has the same key. The records
      before and after it keep their order. */
  lemma CancelRemovesFirstMatch(s: seq<ReservationRecord>, customerName: string, hotelName: string,
                                roomNumber: int, checkInDate: string, i: nat)
    requires IsFirst(s, Key(customerName, hotelName, roomNumber, checkInDate), i)
    ensures Cancelled(s, customerName, hotelName, roomNumber, checkInDate) == Some(s[..i] + s[i + 1..])
  {
    var p := Key(customerName, hotelName, roomNumber, checkInDate);
    FirstMatchIsFirst(s, p, i);
    assert s[i] !in s[..i];
    RemoveFirstAt(s, s[i], i);
  }

  /** reservations.json: `file` is its parsed contents, None when the file does not exist. */
  class ReservationFile {
    var file: Option<seq<ReservationRecord>>

    constructor (initial: Option<seq<ReservationRecord>>)
      ensures file == initial
    {
      file := initial;
    }

    /** load_reservations_data never fails: the stored list, or the empty list without a file. */
    method LoadReservationsData() returns (data: seq<ReservationRecord>)
      ensures file.Some? ==> data == file.value
      ensures file.None? ==> data == []
    {
      if file.Some? {
        data := file.value;
      } else {
        data := [];
      }
    }

    /** create_reservation: append one record to the stored list (an absent file counts as empty)
        and return the new Reservation object. */
    method CreateReservation(customerName: string, hotelName: string, roomNumber: int,
                             checkInDate: string, checkOutDate: Option<string>)
      returns (r: Reservation)
      modifies this
      ensures fresh(r)
      ensures r.Record() == ReservationRecord(customerName, hotelName, roomNumber, checkInDate, checkOutDate)
      ensures file == Some(old(file).GetOr([]) + [r.Record()])
    {
      r := new Reservation(customerName, hotelName, roomNumber, checkInDate, checkOutDate);
      var data: seq<ReservationRecord> := [];
      if file.Some? {
        data := file.value;
      }
      data := data + [r.Record()];
      file := Some(data);
    }

    /** cancel_reservation: remove the first record with the composite key and rewrite the file,
        or warn that there is none and write nothing. */
    method CancelReservation(customerName: string, hotelName: string, roomNumber: int,
                             checkInDate: string)
      returns (report: Report)
      modifies this
      ensures Cancelled(old(file).GetOr([]), customerName, hotelName, roomNumber, checkInDate).None? ==>
        report == NotFound(LogWarning) && file == old(file)
      ensures Cancelled(old(file).GetOr([]), customerName, hotelName, roomNumber, checkInDate).Some? ==>
        report == Removed &&
        file == Cancelled(old(file).GetOr([]), customerName, hotelName, roomNumber, checkInDate)
    {
      var data := LoadReservationsData();
      match FirstMatch(data, Key(customerName, hotelName, roomNumber, checkInDate))
      case None =>
        report := NotFound(LogWarning);
      case Some(i) =>
        data := RemoveFirst(data, data[i]);
        file := Some(data);
        report := Removed;
    }
  }

  /** The load test: create one reservation on an empty store, then load. */
  method CreateThenLoad(customerName: string, hotelName: string, roomNumber: int,
                        checkInDate: string, checkOutDate: Option<string>)
    returns (data: seq<ReservationRecord>)
    ensures data == [ReservationRecord(customerName, hotelName, roomNumber, checkInDate, checkOutDate)]
  {
    var store := new ReservationFile(Some([]));
    var _ := store.CreateReservation(customerName, hotelName, roomNumber, checkInDate, checkOutDate);
    data := store.LoadReservationsData();
  }

  /** The cancel test: create one reservation, cancel it by its four key fields, then cancel
      the same key again. */
  method CreateThenCancelTwice(customerName: string, hotelName: string, roomNumber: int,
                               checkInDate: string, checkOutDate: Option<string>)
    returns (first: Report, second: Report, data: seq<ReservationRecord>)
    ensures first == Removed
    ensures second == NotFound(LogWarning)
    ensures data == []
  {
    var store := new ReservationFile(Some([]));
    var _ := store.CreateReservation(customerName, hotelName, roomNumber, checkInDate, checkOutDate);
    first := store.CancelReservation(customerName, hotelName, roomNumber, checkInDate);
    second := store.CancelReservation(customerName, hotelName, roomNumber, checkInDate);
    data := store.LoadReservationsData();
  }

  /** A cancel request that differs from a stored record in one key field finds nothing,
      whatever its check-out date: the list stays as it was. */
  method CancelWithOtherCheckIn(customerName: string, hotelName: string, roomNumber: int,
                                checkInDate: string, checkOutDate: Option<string>, otherCheckIn: string)
    returns (report: Report, data: seq<ReservationRecord>)
    requires otherCheckIn != checkInDate
    ensures report == NotFound(LogWarning)
    ensures data == [ReservationRecord(customerName, hotelName, roomNumber, checkInDate, checkOutDate)]
  {
    var store := new ReservationFile(Some([]));
    var _ := store.CreateReservation(customerName, hotelName, roomNumber, checkInDate, checkOutDate);
    report := store.CancelReservation(customerName, hotelName, roomNumber, otherCheckIn);
    data := store.LoadReservationsData();
  }

  /** On an absent file, cancelling reports not-found and leaves the file absent. */
  method CancelWithoutFile(customerName: string, hotelName: string, roomNumber: int, checkInDate: string)
    returns (report: Report, after: Option<seq<ReservationRecord>>)
    ensures report == NotFound(LogWarning)
    ensures after == None
  {
    var store := new ReservationFile(None);
    report := store.CancelReservation(customerName, hotelName, roomNumber, checkInDate);
    after := store.file;
  }
}
