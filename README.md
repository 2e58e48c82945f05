# Hotel record stores, modelled in Dafny

The system keeps three independent record stores for a small hotel domain:
customers (`customers.json`), hotels (`hotels.json`) and reservations
(`reservations.json`). Each file is a flat JSON array. Every mutating
operation loads the whole array and changes it in memory. It rewrites the
whole file only when something was created, matched or patched. Display
and load only read. A live `Hotel` object also keeps its own
in-memory list of `Reservation` objects. That list is never persisted and
never reconciled with `reservations.json`.

The model keeps the structure of the source:

- `outcomes.dfy` (module `Outcomes`): `Option`; the `Report` value that
  replaces log and console text (`Removed`, `Updated`, `NotFound(channel)`,
  `NoFile`); `Raising`, which stands for the customer store's
  `FileNotFoundError`; and Python truthiness for the optional arguments.
- `lists.dfy` (module `Lists`): the list logic the stores share. It covers
  the filtering list comprehension (`Without`), the `next(...)` search for the
  first match (`FirstMatch`) and `list.remove` (`RemoveFirst`). Each comes
  with lemmas about order, length and which element is hit.
- `customers.dfy`, `reservations.dfy`, `hotels.dfy`: one module per source
  file. Each backing file is a class field `file: Option<seq<Record>>`, where
  `None` means the file does not exist. Each store operation is a method that
  reads and replaces that field. `Hotel` is a class whose methods update its
  fields in place. `Reservation` is a class, so `in` and `remove` on a hotel's
  list compare object identity, as Python does for a class without `__eq__`.

The three stores handle a missing file differently, and the model keeps
that difference:

- The customer store returns `FileNotFoundError` from every operation
  except `create_customer`, which reads a missing file as an empty list.
- The reservation store reads a missing file as an empty list.
- `delete_hotel` checks for the file itself and reports `NoFile`.

The source sends "not found" messages to different places. Each `NotFound`
report records where: the INFO log, the WARNING log (reservation
cancellation), or standard output (`modify_customer_info`,
`Hotel.cancel_reservation`).

Some methods are named after a test scenario. Each one builds its own store
and runs the operations on it, and its contract holds for all field
values. Their starting states:

- `Customers.CreateThenDeleteTwice`, `Customers.CreateThenModify`,
  `Reservations.CreateThenLoad`, `Reservations.CreateThenCancelTwice` and
  `Reservations.CancelWithOtherCheckIn` start from a file holding `[]`. That
  is the state the customer and reservation tests' `setUp` writes.
- `Customers.AbsentFileRaises` and `Reservations.CancelWithoutFile` start
  with no file at all.
- `Hotels.DeleteMissingHotel` starts with no `hotels.json`, deletes, then
  creates one hotel and deletes another name. The hotel tests never reset
  `hotels.json`, so the test itself may start from any earlier contents.
- `Hotels.ModifyWithFalsyValues` starts from `[]`.
- `Hotels.ReserveThenCancel` works on any hotel that does not already hold
  the reservation object.
- `Reservations.CreateThenCancelTwice` repeats the same four keys on its
  second cancel. The reservation test uses different keys for its second
  cancel. Both find nothing, because the store is empty by then.

Two points about the code:

- The hotel store has no load operation. `hotel.py` reads `hotels.json` only
  inside `create_hotel` and `delete_hotel`, and both treat a missing file as
  described above.
- Not-found cases are reported in Spanish, on the channel each operation
  uses. Every repository test that checks a message (five of thirteen)
  expects English text, which the code never emits.

## Model

| member | source | states |
|---|---|---|
| Lists.Count | Actividad-6.2/src/customer/customer.py:63 | The count of matching records is at most the length, and it is zero exactly when no record matches |
| Lists.Without | Actividad-6.2/src/customer/customer.py:60-63 | The comprehension's result is shorter than its input by exactly the number of matching records |
| Lists.WithoutMembers | Actividad-6.2/src/customer/customer.py:60-62 | The comprehension's result holds only records that fail the test, and it keeps every record that fails it |
| Lists.FirstMatch | Actividad-6.2/src/customer/customer.py:78-81 | The search returns the position of the first matching record, with no match before it, or None exactly when no record matches |
| Lists.RemoveFirst | Actividad-6.2/src/reservation/reservation.py:86 | `list.remove` of a present element shortens the list by exactly one |
| Lists.RemoveFirstMultiset | Actividad-6.2/src/hotel/hotel.py:117-118 | `list.remove` takes out exactly one copy of the element and leaves every other element |
| Lists.WithoutRemovesEveryMatch | Actividad-6.2/src/hotel/hotel.py:64-73 | The filter that delete_customer and delete_hotel apply drops every matching record, duplicates included. It keeps every other record. The length drops by exactly the number of matches. The list is unchanged exactly when no record matches |
| Lists.WithoutConcat | Actividad-6.2/src/hotel/hotel.py:64-66 | Filtering distributes over concatenation, so the kept records keep their relative order |
| Lists.WithoutUnchanged | Actividad-6.2/src/hotel/hotel.py:68-73 | The filtered list equals the loaded one exactly when no record matches (the "rewrite only if shorter" test) |
| Lists.FirstMatchIsFirst | Actividad-6.2/src/customer/customer.py:99-102 | Any position that is the first match is the one the search returns |
| Lists.RemoveFirstAt | Actividad-6.2/src/hotel/hotel.py:118 | `list.remove` deletes the first occurrence only; the elements before and after it keep their order |
| Lists.RemoveFirstAppended | Actividad-6.2/src/hotel/hotel.py:109-118 | Appending an element that was absent and then removing it restores the list |
| Customers.PatchFirst | Actividad-6.2/src/customer/customer.py:98-112 | The modify step finds nothing exactly when no record has the name; otherwise the rewritten list has the same length |
| Customers.PatchFirstTouchesFirstMatchOnly | Actividad-6.2/src/customer/customer.py:98-109 | Only the first record with the name changes. It keeps its name and takes each truthy new email or phone. All other records are unchanged |
| Customers.PatchFirstWithNothingGiven | Actividad-6.2/src/customer/customer.py:104-109 | With no truthy email or phone, the list written back equals the stored one |
| Customers.CustomerFile.constructor | Actividad-6.2/test/customer_test.py:13-18 | The store starts from the given file state |
| Customers.CustomerFile.LoadCustomersData | Actividad-6.2/src/customer/customer.py:121-124 | Returns the stored list, and fails with FileNotFoundError exactly when the file is absent |
| Customers.CustomerFile.CreateCustomer | Actividad-6.2/src/customer/customer.py:36-50 | The new file is the old list (or the empty list) with exactly the new record appended; the record is returned |
| Customers.CustomerFile.DeleteCustomer | Actividad-6.2/src/customer/customer.py:59-68 | An absent file raises and stays absent. Otherwise the file becomes the filtered list when something matched (Removed), or stays as it was (NotFound at INFO) |
| Customers.CustomerFile.DisplayCustomerInfo | Actividad-6.2/src/customer/customer.py:77-87 | An absent file raises. Otherwise the result is the first record with the name, or None exactly when none has it; the store is not changed |
| Customers.CustomerFile.ModifyCustomerInfo | Actividad-6.2/src/customer/customer.py:98-112 | An absent file raises and stays absent. When no record has the name, the file is unchanged and NotFound goes to the console. Otherwise the patched list is written (Updated) |
| Customers.CreateThenDeleteTwice | Actividad-6.2/test/customer_test.py:31-39 | Creating then deleting a name removes it; a second delete of another name reports NotFound at INFO; the store ends empty |
| Customers.CreateThenModify | Actividad-6.2/test/customer_test.py:50-61 | After modify, the single stored record keeps its name and old values for falsy arguments, and takes the truthy new email and phone |
| Customers.AbsentFileRaises | Actividad-6.2/src/customer/customer.py:59-124 | Delete, display, modify and load all raise FileNotFoundError on an absent file, and the file stays absent |
| Reservations.Reservation.constructor | Actividad-6.2/src/reservation/reservation.py:14-29 | A new Reservation object carries the five given fields; check-out may be None |
| Reservations.Cancelled | Actividad-6.2/src/reservation/reservation.py:78-88 | Cancelling finds nothing exactly when no record matches all four key fields; otherwise the list loses exactly one record |
| Reservations.CancelRemovesFirstMatch | Actividad-6.2/src/reservation/reservation.py:78-86 | `remove` on the found record takes out exactly the first record with the key, and the others keep their order |
| Reservations.ReservationFile.constructor | Actividad-6.2/test/reservation_test.py:10-15 | The store starts from the given file state |
| Reservations.ReservationFile.LoadReservationsData | Actividad-6.2/src/reservation/reservation.py:100-103 | Never fails: returns the stored list, or the empty list when the file is absent |
| Reservations.ReservationFile.CreateReservation | Actividad-6.2/src/reservation/reservation.py:44-63 | Returns a new object with the five fields. The file becomes the old list (or the empty list) with exactly that record appended |
| Reservations.ReservationFile.CancelReservation | Actividad-6.2/src/reservation/reservation.py:77-91 | With no record matching the four key fields, nothing is written and NotFound goes to the WARNING log (an absent file stays absent). Otherwise the first match is removed and the list rewritten (Removed) |
| Reservations.CreateThenLoad | Actividad-6.2/test/reservation_test.py:50-63 | Create on an empty store, then load, yields exactly one record equal to the created fields |
| Reservations.CreateThenCancelTwice | Actividad-6.2/test/reservation_test.py:32-48 | Cancel with the same four keys removes the record and empties the store; a second cancel reports NotFound at WARNING |
| Reservations.CancelWithOtherCheckIn | Actividad-6.2/src/reservation/reservation.py:78-83 | A request differing only in check-in date matches nothing, whatever the check-out date; the store is unchanged |
| Reservations.CancelWithoutFile | Actividad-6.2/src/reservation/reservation.py:77-91 | On an absent file, cancel reports NotFound at WARNING and does not create the file |
| Hotels.Hotel.constructor | Actividad-6.2/src/hotel/hotel.py:22-25 | A new Hotel has the given name, location and rooms and no reservations |
| Hotels.Hotel.ModifyInfo | Actividad-6.2/src/hotel/hotel.py:96-101 | Each of name, location and rooms changes only for a truthy value (not None, "" or 0); the reservations are untouched |
| Hotels.Hotel.ReserveRoom | Actividad-6.2/src/hotel/hotel.py:109 | The reservation object is appended at the end; name, location and rooms are unchanged |
| Hotels.Hotel.CancelReservation | Actividad-6.2/src/hotel/hotel.py:117-120 | A held object loses its first occurrence (Removed). Otherwise the list is unchanged and NotFound goes to the console. Other fields are unchanged |
| Hotels.HotelFile.constructor | Actividad-6.2/src/hotel/hotel.py:40-42 | The store starts from whatever state `hotels.json` is in when `create_hotel` or `delete_hotel` reads it: absent, or holding any list of records |
| Hotels.HotelFile.CreateHotel | Actividad-6.2/src/hotel/hotel.py:37-51 | Returns a new Hotel with the given fields and no reservations. The file becomes the old list (or the empty list) with exactly that record appended |
| Hotels.HotelFile.DeleteHotel | Actividad-6.2/src/hotel/hotel.py:60-75 | An absent file gives NoFile and stays absent. Otherwise the records with another name are kept (Removed) when something matched, or the file is unchanged (NotFound at INFO) |
| Hotels.ReserveThenCancel | Actividad-6.2/test/hotel_test.py:69-77 | Reserving an object not yet held and then cancelling it restores the hotel's list |
| Hotels.DeleteMissingHotel | Actividad-6.2/test/hotel_test.py:31-39 | Deleting a name not stored reports NotFound at INFO and leaves the file as it was; without a file it reports NoFile |
| Hotels.ModifyWithFalsyValues | Actividad-6.2/src/hotel/hotel.py:96-101 | modify_info with "", None and 0 leaves a new hotel's fields as created, and the stored file is untouched |

## Left out

- File access and JSON (`os.path.exists`, `open`, `json.load`, `json.dump`): each file is the `file` field. Malformed JSON is not modelled; in the source it propagates as a parse error.
- Log and console text, and their Spanish wording: each operation returns a `Report` that names the channel instead. Every repository test that checks a message (five of thirteen) expects English text that the code never emits. The model follows the code's behaviour, not those message strings.
- `Hotel.display_info` (Actividad-6.2/src/hotel/hotel.py:77-86): it only logs the fields and the held reservations, and changes nothing.
- `DisplayCustomerInfo` returns the found record as a value instead of logging its three fields.
- Concurrency and lost updates between writers: the source is single-threaded, with a whole-file read-modify-write and no locking.
- Python truthiness beyond `None`, `""` and `0` for the optional arguments. The arguments are typed `Option<string>` and `Option<int>`, so other falsy values, such as `False` or an empty list, cannot be passed.
- Python's `==` on a JSON number that is a float (`102 == 102.0`): room numbers are `int`.
- `Customer.__init__` on its own: `CreateCustomer` returns the record value that the new `Customer` object carries. That object is never mutated in the source.
