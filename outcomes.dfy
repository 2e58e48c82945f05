/** Values shared by the three record stores: optional values, what an
    operation reports instead of printing or logging, and the customer
    store's FileNotFoundError. */
module Outcomes {

  /** A value that may be missing: Python's None, or a backing file that does not exist. */
  datatype Option<+T> = None | Some(value: T) {

    /** The value, or `default` when there is none. */
    function GetOr(default: T): T {
      match this
      case Some(v) => v
      case None => default
    }
  }

  /** Where the source sends a message: the log at INFO, the log at WARNING, or standard output. */
  datatype Channel = LogInfo | LogWarning | Console

  /** What a store operation reports instead of emitting text.
      Removed: a record or reservation was taken out.
      Updated: a record was modified in place.
      NotFound: nothing matched; `channel` says where the source reports it.
      NoFile: the hotel store found no backing file to delete from. */
  datatype Report = Removed | Updated | NotFound(channel: Channel) | NoFile

  /** The result of a customer-store call, which raises FileNotFoundError when customers.json is absent. */
  datatype Raising<+T> = Returned(value: T) | FileNotFoundError

  /** Python truthiness of an optional string argument: neither None nor "". */
  predicate Truthy(v: Option<string>) {
    v.Some? && v.value != ""
  }

  /** Python truthiness of an optional integer argument: neither None nor 0. */
  predicate TruthyInt(v: Option<int>) {
    v.Some? && v.value != 0
  }
}
