/** Values that may be absent, and the keys of a partial update object.

    Option<T> stands for a TypeScript `T | undefined` or `T | null`.
    Patch<T> stands for one key of a `Partial<Record>` update object: a key the
    caller left out (Keep) or a key the caller supplied (Put). Spreading the
    update over a record (`{ ...record, ...updates }`) keeps the record's value
    for every left-out key and takes the supplied value otherwise; for an
    optional field Put(None) is a key explicitly set to `undefined`, which
    overwrites the old value. */
module Optional {

  datatype Option<T> = None | Some(value: T) {
    /** The value, or `default` when absent: `x || default` and `x ?? default`. */
    function GetOr(default: T): T {
      match this
      case Some(v) => v
      case None => default
    }
  }

  datatype Patch<T> = Keep | Put(value: T)

  /** The value a spread `{ ...record, ...updates }` leaves in one field. */
  function Apply<T>(p: Patch<T>, current: T): T {
    match p
    case Keep => current
    case Put(v) => v
  }
}
