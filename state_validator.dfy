/**
 * The authorize endpoint's `state` validator.  `state` is optional: an
 * omitted value is accepted as absent; a given value must be sent once,
 * within its length limit and VSCHAR.
 */
module StateValidation {
  import opened Wrappers
  import opened Text
  import opened ProtocolErrors
  import opened RequestParameters
  import opened SyntaxValidators

  const MultipleStateValuesNotAllowed :=
    ProtocolError(InvalidRequest, Some("Multiple \"state\" values are present, but only one is allowed"))
  const StateIsTooLong := ProtocolError(InvalidRequest, Some("\"state\" is too long"))
  const InvalidStateSyntax := ProtocolError(InvalidRequest, Some("Invalid \"state\" syntax"))

  /**
   * The validator as it is built: an omitted state is returned through
   * `new Result<string?, ProtocolError>((string?) null)`, which selects the
   * ok constructor, whose guard clause rejects a null value.
   */
  function ValidateStateAsWritten(p: Params, limits: Limits): (r: Construction<Result<Option<string>, ProtocolError>>)
    ensures r == ArgumentNullThrown <==> Omitted(p, StateParameter)
    ensures r.Constructed? ==> r.value == ValidateState(p, limits)
  {
    match ReadSingle(p, StateParameter, limits.state)
    case Missing => OkConstructor(None)
    case Multiple => Constructed(Err(MultipleStateValuesNotAllowed))
    case TooLong => Constructed(Err(StateIsTooLong))
    case Present(state) =>
      if !StateIsValid(state) then Constructed(Err(InvalidStateSyntax)) else OkConstructor(Some(state))
  }

  /** `new Result<TOk, TError>(TOk ok)`: `ArgumentNullException.ThrowIfNull(ok)`, then the ok result. */
  function OkConstructor<T, E>(ok: Option<T>): (r: Construction<Result<Option<T>, E>>)
  {
    if ok.None? then ArgumentNullThrown else Constructed(Ok(ok))
  }

  /** An authorization request without `state`, which the protocol allows, reaches the throwing constructor. */
  lemma OmittedStateThrows(limits: Limits)
    ensures ValidateStateAsWritten(map[], limits) == ArgumentNullThrown
  {
  }

  /** The validator with the omitted case returning an absent state, as its comments and the protocol intend. */
  function ValidateState(p: Params, limits: Limits): (r: Result<Option<string>, ProtocolError>)
    ensures Omitted(p, StateParameter) ==> r == Ok(None)
    ensures Repeated(p, StateParameter) ==> r == Err(MultipleStateValuesNotAllowed)
    ensures SuppliedOnce(p, StateParameter) ==>
      var v := Value(p, StateParameter);
      r == (if Utf16Length(v) > limits.state then Err(StateIsTooLong)
            else if !StateIsValid(v) then Err(InvalidStateSyntax)
            else Ok(Some(v)))
    // A returned state is the value sent, within the limit and VSCHAR.
    ensures r.Ok? && r.value.Some? ==>
      SuppliedOnce(p, StateParameter) && r.value.value == Value(p, StateParameter)
      && Utf16Length(r.value.value) <= limits.state && StateIsValid(r.value.value)
  {
    match ReadSingle(p, StateParameter, limits.state)
    case Missing => Ok(None)
    case Multiple => Err(MultipleStateValuesNotAllowed)
    case TooLong => Err(StateIsTooLong)
    case Present(state) => if !StateIsValid(state) then Err(InvalidStateSyntax) else Ok(Some(state))
  }
}
