/**
 * The authorize-request validator: it runs the required-parameters step and
 * reports that step's error as a validation error without required
 * parameters, so that the error is shown rather than redirected.  Everything
 * after that step is unfinished and throws `NotImplementedException`.
 */
module AuthorizeRequestValidation {
  import opened Wrappers
  import opened Text
  import opened ProtocolErrors
  import opened RequestParameters
  import opened AuthorizeModels
  import opened ClientIdValidation
  import opened RequiredParametersValidation
  import opened SyntaxValidators

  /** What `ValidateAsync` does: it returns a result, or an `ArgumentNullException` or `NotImplementedException` escapes it. */
  datatype AuthorizeRequestOutcome =
    | Validated(result: Result<ValidatedAuthorizeRequest, AuthorizeRequestValidationError>)
    | ArgumentNullEscaped
    | NotImplementedEscaped

  /** `IAuthorizeRequestRequiredParametersValidator.ValidateAsync`, the validator's one collaborator. */
  type RequiredParametersValidator = Params -> RequiredParametersOutcome

  function ValidateAuthorizeRequest(p: Params, required: RequiredParametersValidator): (r: AuthorizeRequestOutcome)
    // An error of the required-parameters step is passed on unchanged, without redirect information.
    ensures required(p).Returned? && required(p).result.Err? ==>
      r == Validated(Err(RedirectUnsafeError(required(p).result.error)))
    // The exception of the step escapes unchanged.
    ensures r == ArgumentNullEscaped <==> required(p) == StateArgumentNullThrown
    // Every other run ends in the unimplemented part.
    ensures r == NotImplementedEscaped <==> required(p).NotImplementedThrown? || (required(p).Returned? && required(p).result.Ok?)
    // No request is ever validated, and no error is ever redirected.
    ensures r.Validated? ==> r.result.Err? && !r.result.error.MayRedirect()
  {
    match required(p)
    case StateArgumentNullThrown => ArgumentNullEscaped
    case NotImplementedThrown(_, _, _, _) => NotImplementedEscaped
    case Returned(requiredParametersResult) =>
      if requiredParametersResult.HasError() then Validated(Err(RedirectUnsafeError(requiredParametersResult.error)))
      else NotImplementedEscaped
  }

  /** The required-parameters step is the only thing consulted. */
  lemma OnlyRequiredParametersConsulted(p: Params, required: RequiredParametersValidator, other: RequiredParametersValidator)
    requires required(p) == other(p)
    ensures ValidateAuthorizeRequest(p, required) == ValidateAuthorizeRequest(p, other)
  {
  }

  /** The validator built from the default required-parameters step, as built. */
  function DefaultRequiredParametersValidator(limits: Limits, store: ClientStore): (required: RequiredParametersValidator)
    ensures forall p: Params :: required(p).Returned? ==> required(p).result.Err?
    ensures forall p: Params :: required(p) == StateArgumentNullThrown <==>
      Omitted(p, StateParameter) && ValidateRequiredParameters(p, CorrectedValidators(limits, store)).NotImplementedThrown?
  {
    assert forall p: Params :: ValidateRequiredParameters(p, DefaultValidators(limits, store)) == StateArgumentNullThrown <==>
      Omitted(p, StateParameter) && ValidateRequiredParameters(p, CorrectedValidators(limits, store)).NotImplementedThrown? by {
      forall p: Params
        ensures ValidateRequiredParameters(p, DefaultValidators(limits, store)) == StateArgumentNullThrown <==>
          Omitted(p, StateParameter) && ValidateRequiredParameters(p, CorrectedValidators(limits, store)).NotImplementedThrown?
      {
        WiringsDifferOnlyForOmittedState(p, limits, store);
      }
    }
    p => ValidateRequiredParameters(p, DefaultValidators(limits, store))
  }

  /** The validator built from the required-parameters step with the corrected `state` validator. */
  function CorrectedRequiredParametersValidator(limits: Limits, store: ClientStore): (required: RequiredParametersValidator)
    ensures forall p: Params :: required(p) != StateArgumentNullThrown
    ensures forall p: Params :: !Omitted(p, StateParameter) ==> required(p) == DefaultRequiredParametersValidator(limits, store)(p)
  {
    assert forall p: Params :: !Omitted(p, StateParameter) ==>
      ValidateRequiredParameters(p, CorrectedValidators(limits, store)) == ValidateRequiredParameters(p, DefaultValidators(limits, store)) by {
      forall p: Params
        ensures !Omitted(p, StateParameter) ==>
          ValidateRequiredParameters(p, CorrectedValidators(limits, store)) == ValidateRequiredParameters(p, DefaultValidators(limits, store))
      {
        WiringsDifferOnlyForOmittedState(p, limits, store);
      }
    }
    p => ValidateRequiredParameters(p, CorrectedValidators(limits, store))
  }

  /** With the default steps, an error of any parameter validator is reported unchanged and never redirected. */
  lemma DefaultErrorsAreShownNotRedirected(p: Params, limits: Limits, store: ClientStore)
    ensures
      var r := ValidateAuthorizeRequest(p, DefaultRequiredParametersValidator(limits, store));
      var step := ValidateRequiredParameters(p, DefaultValidators(limits, store));
      && (step.Returned? ==> r == Validated(Err(RedirectUnsafeError(step.result.error))))
      && (step.StateArgumentNullThrown? ==> r == ArgumentNullEscaped)
      && (step.NotImplementedThrown? ==> r == NotImplementedEscaped)
  {
  }

  /** A request without `client_id` gets `invalid_request` "\"client_id\" is missing", shown to the user agent. */
  lemma MissingClientIdShown(p: Params, limits: Limits, store: ClientStore)
    requires Omitted(p, ClientIdParameter)
    ensures ValidateAuthorizeRequest(p, DefaultRequiredParametersValidator(limits, store))
         == Validated(Err(AuthorizeRequestValidationError(None, ClientIdIsMissing)))
  {
    MissingClientIdRejected(p, limits, store);
  }

  /** A request naming an unknown client gets `unauthorized_client`, shown to the user agent. */
  lemma UnknownClientShown(p: Params, limits: Limits, store: ClientStore)
    requires SuppliedOnce(p, ClientIdParameter) && Utf16Length(Value(p, ClientIdParameter)) <= limits.clientId
    requires ClientIdIsValid(Value(p, ClientIdParameter)) && store(Value(p, ClientIdParameter)).None?
    ensures
      var r := ValidateAuthorizeRequest(p, DefaultRequiredParametersValidator(limits, store));
      r.Validated? && r.result.Err? && r.result.error.error.error == UnauthorizedClient && !r.result.error.MayRedirect()
  {
    UnknownClientRejected(p, limits, store);
  }

  /**
   * A request that passes `client_id`, `response_type` and `response_mode`
   * but has no `state` ends, as built, in the `ArgumentNullException` of the
   * `state` validator; with the corrected validator it reaches the
   * unimplemented part.
   */
  lemma OmittedStateEscapes(p: Params, limits: Limits, store: ClientStore)
    requires Omitted(p, StateParameter)
    requires ValidateRequiredParameters(p, CorrectedValidators(limits, store)).NotImplementedThrown?
    ensures ValidateAuthorizeRequest(p, DefaultRequiredParametersValidator(limits, store)) == ArgumentNullEscaped
    ensures ValidateAuthorizeRequest(p, CorrectedRequiredParametersValidator(limits, store)) == NotImplementedEscaped
  {
    WiringsDifferOnlyForOmittedState(p, limits, store);
  }
}
