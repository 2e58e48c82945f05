/** The hotel store and the live Hotel object. hotels.json holds a flat
    list of {name, location, rooms} records; a Hotel instance also keeps
    an in-memory list of Reservation objects that is never written to
    any file, and its field edits are never written back either. */
module Hotels {
  import opened Outcomes
  import opened Lists
  import opened Reservations

  /** One entry of hotels.json. */
  datatype HotelRecord = HotelRecord(name: string, location: string, rooms: int)

  /** The test delete_hotel filters on: the record has this name. */
  function Named(name: string): HotelRecord -> bool {
    (h: HotelRecord) => h.name == name
  }

  /** A live Hotel object. */
  class Hotel {
    var name: string
    var location: string
    var rooms: int
    var reservations: seq<Reservation>

    /** Hotel(name, location, rooms): the given fields and no reservations. */
    constructor (name: string, location: string, rooms: int)
      ensures this.name == name && this.location == location && this.rooms == rooms
      ensures reservations == []
    {
      this.name := name;
      this.location := location;
      this.rooms := rooms;
      reservations := [];
    }

    /** modify_info: each field takes its new value only when that value is truthy
        (a given non-empty string, a given non-zero number of rooms). */
    method ModifyInfo(name: Option<string>, location: Option<string>, rooms: Option<int>)
      modifies this
      ensures this.name == if Truthy(name) then name.value else old(this.name)
      ensures this.location == if Truthy(location) then location.value else old(this.location)
      ensures this.rooms == if TruthyInt(rooms) then rooms.value else old(this.rooms)
      ensures reservations == old(reservations)
    {
      if Truthy(name) {
        this.name := name.value;
      }
      if Truthy(location) {
        this.location := location.value;
      }
      if TruthyInt(rooms) {
        this.rooms := rooms.value;
      }
    }

    /** reserve_room: append the reservation object; no availability check. */
    method ReserveRoom(reservation: Reservation)
      modifies this
      ensures reservations == old(reservations) + [reservation]
      ensures name == old(name) && location == old(location) && rooms == old(rooms)
    {
      reservations := reservations + [reservation];
    }

    /** cancel_reservation: remove the first occurrence of this very object, or report on
        the console that it is not held. */
    method CancelReservation(reservation: Reservation) returns (report: Report)
      modifies this
      ensures reservation in old(reservations) ==>
        report == Removed && reservations == RemoveFirst(old(reservations), reservation)
      ensures reservation !in old(reservations) ==>
        report == NotFound(Console) && reservations == old(reservations)
      ensures name == old(name) && location == old(location) && rooms == old(rooms)
    {
      if reservation in reservations {
        reservations := RemoveFirst(reservations, reservation);
        report := Removed;
      } else {
        report := NotFound(Console);
      }
    }
  }

  /** hotels.json: `file` is its parsed contents, None when the file does not exist. */
  class HotelFile {
    var file: Option<seq<HotelRecord>>

    constructor (initial: Option<seq<HotelRecord>>)
      ensures file == initial
    {
      file := initial;
    }

    /** create_hotel: append one record to the stored list (an absent file counts as empty)
        and return a new Hotel with those fields. */
    method CreateHotel(name: string, location: string, rooms: int) returns (hotel: Hotel)
      modifies this
      ensures fresh(hotel)
      ensures hotel.name == name && hotel.location == location && hotel.rooms == rooms
      ensures hotel.reservations == []
      ensures file == Some(old(file).GetOr([]) + [HotelRecord(name, location, rooms)])
    {
      hotel := new Hotel(name, location, rooms);
      var data: seq<HotelRecord> := [];
      if file.Some? {
        data := file.value;
      }
      data := data + [HotelRecord(hotel.name, hotel.location, hotel.rooms)];
      file := Some(data);
    }

    /** delete_hotel: without a file, report that there are no hotels; otherwise keep the
        records with another name and rewrite only if some were dropped. */
    method DeleteHotel(name: string) returns (report: Report)
      modifies this
      ensures old(file).None? ==> report == NoFile && file == None
      ensures old(file).Some? && Count(old(file).value, Named(name)) > 0 ==>
        report == Removed && file == Some(Without(old(file).value, Named(name)))
      ensures old(file).Some? && Count(old(file).value, Named(name)) == 0 ==>
        report == NotFound(LogInfo) && file == old(file)
    {
      if file.Some? {
        var data := file.value;
        var filtered := Without(data, Named(name));
        if |filtered| < |data| {
          file := Some(filtered);
          report := Removed;
        } else {
          report := NotFound(LogInfo);
        }
      } else {
        report := NoFile;
      }
    }
  }

  /** reserve_room followed by cancel_reservation of the same object restores the list,
      when the object was not held before. */
  method ReserveThenCancel(hotel: Hotel, reservation: Reservation) returns (report: Report)
    requires reservation !in hotel.reservations
    modifies hotel
    ensures report == Removed
    ensures hotel.reservations == old(hotel.reservations)
  {
    ghost var before := hotel.reservations;
    hotel.ReserveRoom(reservation);
    report := hotel.CancelReservation(reservation);
    RemoveFirstAppended(before, reservation);
  }

  /** The delete test: with a file holding another hotel, deleting a name that is not
      stored reports not-found and changes nothing; without a file it reports no hotels. */
  method DeleteMissingHotel(name: string, location: string, rooms: int, other: string)
    returns (present: Report, absent: Report, after: Option<seq<HotelRecord>>)
    requires other != name
    ensures present == NotFound(LogInfo)
    ensures after == Some([HotelRecord(name, location, rooms)])
    ensures absent == NoFile
  {
    var store := new HotelFile(None);
    absent := store.DeleteHotel(other);
    var _ := store.CreateHotel(name, location, rooms);
    assert [] + [HotelRecord(name, location, rooms)] == [HotelRecord(name, location, rooms)];
    present := store.DeleteHotel(other);
    after := store.file;
  }

  /** modify_info with falsy arguments (None, "", 0) leaves a fresh hotel as constructed,
      and it never changes what create_hotel stored. */
  method ModifyWithFalsyValues(name: string, location: string, rooms: int)
    returns (fields: HotelRecord, stored: Option<seq<HotelRecord>>)
    ensures fields == HotelRecord(name, location, rooms)
    ensures stored == Some([HotelRecord(name, location, rooms)])
  {
    var store := new HotelFile(Some([]));
    var hotel := store.CreateHotel(name, location, rooms);
    assert [] + [HotelRecord(name, location, rooms)] == [HotelRecord(name, location, rooms)];
    hotel.ModifyInfo(Some(""), None, Some(0));
    fields := HotelRecord(hotel.name, hotel.location, hotel.rooms);
    stored := store.file;
  }
}
