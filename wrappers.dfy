/**
 * Result and option shapes shared by the whole model.
 *
 * `Result<T, E>` models the framework's two-type `Result<TOk, TError>`: the ok
 * constructor stores a value and clears `HasError`, the error constructor
 * stores a (non-null) error and sets `HasError`.  `Partial<T>` models the
 * single-type `Result<TOk>`, whose parameterless constructor is the error case
 * and carries nothing.
 */
module Wrappers {

  datatype Option<+T> = None | Some(value: T)

  datatype Result<+T, +E> = Ok(value: T) | Err(error: E)
  {
    /** `HasError` is true exactly for the error constructor. */
    predicate HasError() { Err? }

    /** The `Ok` property: populated exactly when there is no error. */
    function OkValue(): Option<T> { if Ok? then Some(value) else None }

    /** The `Error` property: populated exactly when there is an error. */
    function ErrorValue(): Option<E> { if Err? then Some(error) else None }
  }

  /** `Result<TOk>`: `Failed` is what the parameterless constructor builds. */
  datatype Partial<+T> = Failed | Succeeded(value: T)
  {
    predicate HasError() { Failed? }

    function OkValue(): Option<T> { if Succeeded? then Some(value) else None }
  }

  /** What a constructor call does: it builds its object, or a guard clause throws `ArgumentNullException`. */
  datatype Construction<+T> = Constructed(value: T) | ArgumentNullThrown

  /** A check that either passes or yields an error (`...ValidationResult` with `HasError`). */
  datatype Outcome<+E> = Pass | Fail(error: E)

  /** Exactly one side of a two-type result is populated, and `HasError` says which. */
  lemma ResultSidesExclusive<T, E>(r: Result<T, E>)
    ensures r.HasError() <==> r.ErrorValue().Some?
    ensures !r.HasError() <==> r.OkValue().Some?
    ensures r.OkValue().Some? != r.ErrorValue().Some?
    ensures r.HasError() ==> r.ErrorValue() == Some(r.error)
    ensures !r.HasError() ==> r.OkValue() == Some(r.value)
  {
  }

  /** The single-type result: failure carries no value, success carries exactly its value. */
  lemma PartialSides<T>(r: Partial<T>)
    ensures r.HasError() <==> r.OkValue().None?
    ensures !r.HasError() ==> r.OkValue() == Some(r.value)
  {
  }
}
