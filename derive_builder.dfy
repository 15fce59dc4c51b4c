/**
 * What the `derive_builder` field attributes used by the API mean.
 *
 * A generated builder stores every field of its target struct as an `Option`
 * of the field's type: `None` until a setter has stored a value. Its `build`
 * turns each stored field into the struct's field: a field marked `default`
 * falls back to the type's default, any other field is required and its
 * absence makes `build` fail.
 */
module DeriveBuilder {
  import opened Wrappers

  /** The error of a generated `build`: the named field was never set. */
  datatype BuildError = UninitializedField(field: string)

  /** A required field (no `default`): the stored value, or the error naming the field. */
  function Required<T>(stored: Option<T>, field: string): (r: Result<T, BuildError>)
    ensures r.Ok? <==> stored.Some?
    ensures r.Ok? ==> stored == Some(r.value)
    ensures r.Err? ==> r.error == UninitializedField(field)
  {
    match stored
    case Some(v) => Ok(v)
    case None => Err(UninitializedField(field))
  }

  /**
   * A field of type `Option<T>` marked `default`: unset, it is `None`, the
   * default of `Option`; set, it is what the setter stored.
   */
  function Defaulted<T>(stored: Option<Option<T>>): (r: Option<T>)
    ensures r.Some? <==> stored.Some? && stored.value.Some?
    ensures r.Some? ==> stored == Some(Some(r.value))
  {
    match stored
    case Some(v) => v
    case None => None
  }
}
