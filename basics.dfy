/** Small shared vocabulary: optional values, the outcome of a validation
    step that may raise a user-facing error, and the framework's cache. */
module Basics {

  datatype Option<T> = None | Some(value: T)

  /** `pct` percent of `amount`, as the source writes it: `amount * pct / 100`. */
  function PercentOf(amount: real, pct: real): real
  {
    amount * pct / 100.0
  }

  /** `Fail(message)` stands for a `frappe.throw(message)`: the save or the
      request is aborted with that message. */
  datatype Outcome = Pass | Fail(message: string)

  /** The process-wide key/value cache of the host framework
      (`frappe.cache()`); only deletion is used by the core. */
  class Cache {
    var entries: map<string, string>

    constructor ()
      ensures entries == map[]
    {
      entries := map[];
    }

    method DeleteValue(key: string)
      modifies this
      ensures entries == old(entries) - {key}
    {
      entries := entries - {key};
    }
  }
}
