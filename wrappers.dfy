/** Optional values and results, for absent fields and rejected requests. */
module Wrappers {

  datatype Option<+T> = None | Some(value: T) {
    /** `x || fallback` for a field that is either absent or set. */
    function GetOr(fallback: T): T
    {
      match this
      case Some(v) => v
      case None => fallback
    }
  }

  datatype Result<+T, +E> = Ok(value: T) | Err(error: E)

  /** Why the document store refuses a record: the schema's `required`,
      `enum` and `min` validators, and its `unique` indexes. */
  datatype SchemaError =
    | Required(field: string)
    | NotInEnum(field: string)
    | BelowMinimum(field: string)
    | Duplicate(field: string)
}
