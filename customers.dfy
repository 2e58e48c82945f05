/** The customer store: customers.json holds a flat list of
    {name, email, phone} records. Every operation except creation first
    loads the file and raises FileNotFoundError when it is absent. */
module Customers {
  import opened Outcomes
  import opened Lists

  /** One entry of customers.json, and the fields of the Customer object create_customer returns. */
  datatype Customer = Customer(name: string, email: string, phone: string)

  /** The test delete_customer filters on and display/modify search with: the record has this name. */
  function Named(name: string): Customer -> bool {
    (c: Customer) => c.name == name
  }

  /** The record after modify_customer_info's overwrites: email and phone change only for truthy arguments. */
  function Patched(c: Customer, email: Option<string>, phone: Option<string>): Customer {
    c.(email := if Truthy(email) then email.value else c.email,
       phone := if Truthy(phone) then phone.value else c.phone)
  }

  /** The list modify_customer_info writes back: the first record with the name patched;
      None when no record has the name. */
  function PatchFirst(s: seq<Customer>, name: string, email: Option<string>, phone: Option<string>)
    : (r: Option<seq<Customer>>)
    ensures r.None? <==> forall j :: 0 <= j < |s| ==> s[j].name != name
    ensures r.Some? ==> |r.value| == |s|
  {
    match FirstMatch(s, Named(name))
    case None => None
    case Some(i) => Some(s[i := Patched(s[i], email, phone)])
  }

  /** modify_customer_info touches only the first record with the name: that record keeps its
      name and takes each truthy new value; every other record is unchanged. */
  lemma PatchFirstTouchesFirstMatchOnly(s: seq<Customer>, name: string, email: Option<string>,
                                        phone: Option<string>, i: nat)
    requires i < |s| && s[i].name == name
    requires forall k :: 0 <= k < i ==> s[k].name != name
    ensures PatchFirst(s, name, email, phone).Some?
    ensures var t := PatchFirst(s, name, email, phone).value;
      && |t| == |s|
      && (forall j :: 0 <= j < |s| && j != i ==> t[j] == s[j])
      && t[i].name == name
      && t[i].email == (if Truthy(email) then email.value else s[i].email)
      && t[i].phone == (if Truthy(phone) then phone.value else s[i].phone)
  {
    FirstMatchIsFirst(s, Named(name), i);
  }

  /** With neither a new email nor a new phone, the rewritten list equals the stored one. */
  lemma PatchFirstWithNothingGiven(s: seq<Customer>, name: string, email: Option<string>,
                                   phone: Option<string>)
    requires !Truthy(email) && !Truthy(phone)
    ensures PatchFirst(s, name, email, phone).Some? ==> PatchFirst(s, name, email, phone).value == s
  {
    match FirstMatch(s, Named(name))
    case None =>
    case Some(i) =>
      assert Patched(s[i], email, phone) == s[i];
  }

  /** customers.json: `file` is its parsed contents, None when the file does not exist. */
  class CustomerFile {
    var file: Option<seq<Customer>>

    constructor (initial: Option<seq<Customer>>)
      ensures file == initial
    {
      file := initial;
    }

    /** load_customers_data: the stored list, or FileNotFoundError when there is no file. */
    method LoadCustomersData() returns (out: Raising<seq<Customer>>)
      ensures out.FileNotFoundError? <==> file.None?
      ensures out.Returned? ==> out.value == file.value
    {
      if file.Some? {
        out := Returned(file.value);
      } else {
        out := FileNotFoundError;
      }
    }

    /** create_customer: append one record to the stored list (an absent file counts as empty). */
    method CreateCustomer(name: string, email: string, phone: string) returns (c: Customer)
      modifies this
      ensures c == Customer(name, email, phone)
      ensures file == Some(old(file).GetOr([]) + [c])
    {
      c := Customer(name, email, phone);
      var data: seq<Customer> := [];
      if file.Some? {
        data := file.value;
      }
      data := data + [c];
      file := Some(data);
    }

    /** delete_customer: keep the records with another name; rewrite only if some were dropped. */
    method DeleteCustomer(name: string) returns (out: Raising<Report>)
      modifies this
      ensures old(file).None? ==> out == FileNotFoundError && file == None
      ensures old(file).Some? && Count(old(file).value, Named(name)) > 0 ==>
        out == Returned(Removed) && file == Some(Without(old(file).value, Named(name)))
      ensures old(file).Some? && Count(old(file).value, Named(name)) == 0 ==>
        out == Returned(NotFound(LogInfo)) && file == old(file)
    {
      var loaded := LoadCustomersData();
      if loaded.FileNotFoundError? {
        return FileNotFoundError;
      }
      var data := loaded.value;
      var filtered := Without(data, Named(name));
      if |filtered| < |data| {
        file := Some(filtered);
        out := Returned(Removed);
      } else {
        out := Returned(NotFound(LogInfo));
      }
    }

    /** display_customer_info: the first record with the name, or None when there is none;
        the store is only read. */
    method DisplayCustomerInfo(name: string) returns (out: Raising<Option<Customer>>)
      ensures out.FileNotFoundError? <==> file.None?
      ensures out.Returned? && out.value.None? ==>
        forall j :: 0 <= j < |file.value| ==> file.value[j].name != name
      ensures out.Returned? && out.value.Some? ==>
        exists i :: IsFirst(file.value, Named(name), i) && file.value[i] == out.value.value
    {
      var loaded := LoadCustomersData();
      if loaded.FileNotFoundError? {
        return FileNotFoundError;
      }
      var data := loaded.value;
      match FirstMatch(data, Named(name))
      case None =>
        out := Returned(None);
      case Some(i) =>
        out := Returned(Some(data[i]));
    }

    /** modify_customer_info: patch the first record with the name and rewrite the file,
        or report on the console that there is none. */
    method ModifyCustomerInfo(name: string, email: Option<string>, phone: Option<string>)
      returns (out: Raising<Report>)
      modifies this
      ensures old(file).None? ==> out == FileNotFoundError && file == None
      ensures old(file).Some? && PatchFirst(old(file).value, name, email, phone).None? ==>
        out == Returned(NotFound(Console)) && file == old(file)
      ensures old(file).Some? && PatchFirst(old(file).value, name, email, phone).Some? ==>
        out == Returned(Updated) && file == PatchFirst(old(file).value, name, email, phone)
    {
      var loaded := LoadCustomersData();
      if loaded.FileNotFoundError? {
        return FileNotFoundError;
      }
      var data := loaded.value;
      match FirstMatch(data, Named(name))
      case None =>
        out := Returned(NotFound(Console));
      case Some(i) =>
        data := data[i := Patched(data[i], email, phone)];
        file := Some(data);
        out := Returned(Updated);
    }
  }

  /** The delete test: create a record, delete it by name, then delete a name that is not stored. */
  method CreateThenDeleteTwice(name: string, email: string, phone: string, other: string)
    returns (first: Raising<Report>, second: Raising<Report>, left: Raising<seq<Customer>>)
    requires other != name
    ensures first == Returned(Removed)
    ensures second == Returned(NotFound(LogInfo))
    ensures left == Returned([])
  {
    var store := new CustomerFile(Some([]));
    var _ := store.CreateCustomer(name, email, phone);
    first := store.DeleteCustomer(name);
    second := store.DeleteCustomer(other);
    left := store.LoadCustomersData();
  }

  /** The modify test: on a store holding one record, modify its email and phone; the loaded
      record takes each truthy new value and keeps the old one otherwise. */
  method CreateThenModify(name: string, email: string, phone: string,
                          newEmail: Option<string>, newPhone: Option<string>)
    returns (loaded: Raising<seq<Customer>>)
    ensures loaded.Returned? && |loaded.value| == 1
    ensures loaded.value[0].name == name
    ensures loaded.value[0].email == (if Truthy(newEmail) then newEmail.value else email)
    ensures loaded.value[0].phone == (if Truthy(newPhone) then newPhone.value else phone)
  {
    var store := new CustomerFile(Some([]));
    var _ := store.CreateCustomer(name, email, phone);
    PatchFirstTouchesFirstMatchOnly([Customer(name, email, phone)], name, newEmail, newPhone, 0);
    var _ := store.ModifyCustomerInfo(name, newEmail, newPhone);
    loaded := store.LoadCustomersData();
  }

  /** Every operation that loads customers.json fails when it is absent, and none creates it. */
  method AbsentFileRaises(name: string, email: Option<string>, phone: Option<string>)
    returns (deleted: Raising<Report>, shown: Raising<Option<Customer>>,
             modified: Raising<Report>, loaded: Raising<seq<Customer>>,
             after: Option<seq<Customer>>)
    ensures deleted == FileNotFoundError && shown == FileNotFoundError
    ensures modified == FileNotFoundError && loaded == FileNotFoundError
    ensures after == None
  {
    var store := new CustomerFile(None);
    deleted := store.DeleteCustomer(name);
    shown := store.DisplayCustomerInfo(name);
    modified := store.ModifyCustomerInfo(name, email, phone);
    loaded := store.LoadCustomersData();
    after := store.file;
  }
}
