/**
 * The required-parameters step of authorize-request validation: `client_id`,
 * then `response_type`, then `response_mode`, then `state`, each step fed the
 * values the earlier ones produced; the first error ends the run.  The step is
 * unfinished: a run in which all four succeed reaches
 * `throw new NotImplementedException()`, and `redirect_uri` is never read.
 */
module RequiredParametersValidation {
  import opened Wrappers
  import opened Text
  import opened ProtocolErrors
  import opened Clients
  import opened RequestParameters
  import opened AuthorizeModels
  import opened ClientIdValidation
  import opened ResponseTypeValidation
  import opened ResponseModeValidation
  import opened StateValidation
  import opened SyntaxValidators

  /** The four parameter validators the step is built from (its constructor arguments). */
  datatype Validators = Validators(
    clientId: Params -> Result<Client, ProtocolError>,
    responseType: (Params, Client) -> Result<set<string>, ProtocolError>,
    responseMode: (Params, Client, set<string>) -> Result<string, ProtocolError>,
    state: (Params, Client) -> Construction<Result<Option<string>, ProtocolError>>)

  /**
   * The default validators as they are built, with their configuration and
   * the client store: the `state` validator throws for an omitted state.
   */
  function DefaultValidators(limits: Limits, store: ClientStore): (v: Validators)
    ensures forall p: Params, client: Client :: v.state(p, client) == ArgumentNullThrown <==> Omitted(p, StateParameter)
    ensures forall p: Params, client: Client ::
      v.state(p, client).Constructed? ==> v.state(p, client).value == ValidateState(p, limits)
  {
    Validators(
      p => ValidateClientId(p, limits, store),
      (p, client) => ValidateResponseType(p, client, limits),
      (p, client, responseType) => ValidateResponseMode(p, responseType, limits),
      (p, client) => ValidateStateAsWritten(p, limits))
  }

  /** The default validators with the corrected `state` validator, which returns an absent state. */
  function CorrectedValidators(limits: Limits, store: ClientStore): (v: Validators)
    ensures forall p: Params, client: Client :: v.state(p, client).Constructed?
    ensures forall p: Params, client: Client :: Omitted(p, StateParameter) ==> v.state(p, client) == Constructed(Ok(None))
    ensures forall p: Params, client: Client ::
      !Omitted(p, StateParameter) ==> v.state(p, client) == DefaultValidators(limits, store).state(p, client)
  {
    Validators(
      p => ValidateClientId(p, limits, store),
      (p, client) => ValidateResponseType(p, client, limits),
      (p, client, responseType) => ValidateResponseMode(p, responseType, limits),
      (p, client) => Constructed(ValidateState(p, limits)))
  }

  /**
   * What `ValidateAsync` does: it returns a result, the `ArgumentNullException`
   * of the `state` validator escapes it, or it throws `NotImplementedException`
   * after all four validators succeeded (the values they produced are kept to
   * state the data flow).
   */
  datatype RequiredParametersOutcome =
    | Returned(result: Result<RequiredParameters, ProtocolError>)
    | StateArgumentNullThrown
    | NotImplementedThrown(client: Client, responseType: set<string>, responseMode: string, state: Option<string>)

  function ValidateRequiredParameters(p: Params, v: Validators): (r: RequiredParametersOutcome)
    // The first error is returned unchanged.
    ensures v.clientId(p).Err? ==> r == Returned(Err(v.clientId(p).error))
    ensures v.clientId(p).Ok? ==>
      var client := v.clientId(p).value;
      && (v.responseType(p, client).Err? ==> r == Returned(Err(v.responseType(p, client).error)))
      && (v.responseType(p, client).Ok? ==>
            var responseType := v.responseType(p, client).value;
            && (v.responseMode(p, client, responseType).Err? ==> r == Returned(Err(v.responseMode(p, client, responseType).error)))
            && (v.responseMode(p, client, responseType).Ok? ==>
                  && (v.state(p, client) == ArgumentNullThrown ==> r == StateArgumentNullThrown)
                  && (v.state(p, client).Constructed? && v.state(p, client).value.Err? ==>
                        r == Returned(Err(v.state(p, client).value.error)))
                  && (v.state(p, client).Constructed? && v.state(p, client).value.Ok? ==> r.NotImplementedThrown?)))
    // The step never produces required parameters.
    ensures r.Returned? ==> r.result.Err?
    // When it runs to the end, each validator was fed exactly what the earlier ones produced.
    ensures r.NotImplementedThrown? ==>
      && v.clientId(p) == Ok(r.client)
      && v.responseType(p, r.client) == Ok(r.responseType)
      && v.responseMode(p, r.client, r.responseType) == Ok(r.responseMode)
      && v.state(p, r.client) == Constructed(Ok(r.state))
  {
    var clientId := v.clientId(p);
    if clientId.HasError() then Returned(Err(clientId.error))
    else
      var client := clientId.value;
      var responseType := v.responseType(p, client);
      if responseType.HasError() then Returned(Err(responseType.error))
      else
        var responseTypes := responseType.value;
        var responseMode := v.responseMode(p, client, responseTypes);
        if responseMode.HasError() then Returned(Err(responseMode.error))
        else
          match v.state(p, client)
          case ArgumentNullThrown => StateArgumentNullThrown
          case Constructed(state) =>
            if state.HasError() then Returned(Err(state.error))
            else NotImplementedThrown(client, responseTypes, responseMode.value, state.value)
  }

  /** After the first error no later validator is consulted: replacing them changes nothing. */
  lemma LaterValidatorsNotConsulted(p: Params, v: Validators, w: Validators)
    requires v.clientId(p) == w.clientId(p)
    requires v.clientId(p).Ok? ==>
      var client := v.clientId(p).value;
      v.responseType(p, client) == w.responseType(p, client)
      && (v.responseType(p, client).Ok? ==>
            var responseType := v.responseType(p, client).value;
            v.responseMode(p, client, responseType) == w.responseMode(p, client, responseType)
            && (v.responseMode(p, client, responseType).Ok? ==> v.state(p, client) == w.state(p, client)))
    ensures ValidateRequiredParameters(p, v) == ValidateRequiredParameters(p, w)
  {
  }

  /** The run depends on the request only through the validators' answers. */
  lemma SameAnswersSameOutcome(p: Params, q: Params, v: Validators)
    requires v.clientId(p) == v.clientId(q)
    requires forall client :: v.responseType(p, client) == v.responseType(q, client)
    requires forall client, responseType :: v.responseMode(p, client, responseType) == v.responseMode(q, client, responseType)
    requires forall client :: v.state(p, client) == v.state(q, client)
    ensures ValidateRequiredParameters(p, v) == ValidateRequiredParameters(q, v)
  {
  }

  /**
   * With the default validators, as built or corrected, only `client_id`,
   * `response_type`, `response_mode` and `state` are read: `redirect_uri`,
   * `scope`, `nonce` and every other parameter make no difference.
   */
  lemma OnlyFourParametersRead(p: Params, q: Params, limits: Limits, store: ClientStore)
    requires SameEntry(p, q, ClientIdParameter) && SameEntry(p, q, ResponseTypeParameter)
    requires SameEntry(p, q, ResponseModeParameter) && SameEntry(p, q, StateParameter)
    ensures ValidateRequiredParameters(p, DefaultValidators(limits, store)) == ValidateRequiredParameters(q, DefaultValidators(limits, store))
    ensures ValidateRequiredParameters(p, CorrectedValidators(limits, store)) == ValidateRequiredParameters(q, CorrectedValidators(limits, store))
  {
    ClientIdIsLocal(p, q, limits, store);
    ResponseTypeIsLocal(p, q, limits);
    ResponseModeIsLocal(p, q, limits);
    StateIsLocal(p, q, limits);
    SameAnswersSameOutcome(p, q, DefaultValidators(limits, store));
    SameAnswersSameOutcome(p, q, CorrectedValidators(limits, store));
  }

  lemma ClientIdIsLocal(p: Params, q: Params, limits: Limits, store: ClientStore)
    requires SameEntry(p, q, ClientIdParameter)
    ensures ValidateClientId(p, limits, store) == ValidateClientId(q, limits, store)
  {
    ReadSingleIsLocal(p, q, ClientIdParameter, limits.clientId);
  }

  lemma ResponseTypeIsLocal(p: Params, q: Params, limits: Limits)
    requires SameEntry(p, q, ResponseTypeParameter)
    ensures forall client :: ValidateResponseType(p, client, limits) == ValidateResponseType(q, client, limits)
  {
    ReadSingleIsLocal(p, q, ResponseTypeParameter, limits.responseType);
  }

  lemma ResponseModeIsLocal(p: Params, q: Params, limits: Limits)
    requires SameEntry(p, q, ResponseModeParameter)
    ensures forall responseType :: ValidateResponseMode(p, responseType, limits) == ValidateResponseMode(q, responseType, limits)
  {
    ReadSingleIsLocal(p, q, ResponseModeParameter, limits.responseMode);
  }

  lemma StateIsLocal(p: Params, q: Params, limits: Limits)
    requires SameEntry(p, q, StateParameter)
    ensures ValidateState(p, limits) == ValidateState(q, limits)
    ensures ValidateStateAsWritten(p, limits) == ValidateStateAsWritten(q, limits)
  {
    ReadSingleIsLocal(p, q, StateParameter, limits.state);
  }

  /** A request without `client_id` is rejected with `invalid_request` before anything else is read. */
  lemma MissingClientIdRejected(p: Params, limits: Limits, store: ClientStore)
    requires Omitted(p, ClientIdParameter)
    ensures ValidateRequiredParameters(p, DefaultValidators(limits, store)) == Returned(Err(ClientIdIsMissing))
  {
  }

  /** A well-formed identifier the store does not know is rejected with `unauthorized_client`. */
  lemma UnknownClientRejected(p: Params, limits: Limits, store: ClientStore)
    requires SuppliedOnce(p, ClientIdParameter) && Utf16Length(Value(p, ClientIdParameter)) <= limits.clientId
    requires ClientIdIsValid(Value(p, ClientIdParameter)) && store(Value(p, ClientIdParameter)).None?
    ensures ValidateRequiredParameters(p, DefaultValidators(limits, store)) == Returned(Err(UnknownOrDisabledClient))
  {
  }

  /**
   * A run of the default validators that reaches the end has validated the
   * store's client, a non-empty subset of `{code, id_token}`, a supported
   * response mode and a VSCHAR state, which as built is always present.
   */
  lemma CompletedRunIsValidated(p: Params, limits: Limits, store: ClientStore)
    requires ValidateRequiredParameters(p, DefaultValidators(limits, store)).NotImplementedThrown?
    ensures
      var r := ValidateRequiredParameters(p, DefaultValidators(limits, store));
      && SuppliedOnce(p, ClientIdParameter) && store(Value(p, ClientIdParameter)) == Some(r.client)
      && r.responseType != {} && r.responseType <= {Code, IdToken}
      && r.responseMode in ResponseModeValues
      && r.state.Some? && SuppliedOnce(p, StateParameter) && r.state.value == Value(p, StateParameter)
      && StateIsValid(r.state.value)
  {
    var v := DefaultValidators(limits, store);
    var r := ValidateRequiredParameters(p, v);
    assert v.clientId(p) == ValidateClientId(p, limits, store);
    assert v.responseType(p, r.client) == ValidateResponseType(p, r.client, limits);
    assert v.responseMode(p, r.client, r.responseType) == ValidateResponseMode(p, r.responseType, limits);
    assert v.state(p, r.client) == ValidateStateAsWritten(p, limits);
  }

  /**
   * The two wirings differ only for an omitted state: as built the run throws
   * `ArgumentNullException` exactly where the corrected run completes with no
   * state, and for every other request they agree.
   */
  lemma {:induction false} WiringsDifferOnlyForOmittedState(p: Params, limits: Limits, store: ClientStore)
    ensures
      var asWritten := ValidateRequiredParameters(p, DefaultValidators(limits, store));
      var corrected := ValidateRequiredParameters(p, CorrectedValidators(limits, store));
      && (asWritten == StateArgumentNullThrown <==> Omitted(p, StateParameter) && corrected.NotImplementedThrown?)
      && (asWritten == StateArgumentNullThrown ==> corrected.state == None)
      && (!Omitted(p, StateParameter) ==> asWritten == corrected)
  {
    var v, w := DefaultValidators(limits, store), CorrectedValidators(limits, store);
    assert v.clientId(p) == w.clientId(p);
    assert forall client :: v.responseType(p, client) == w.responseType(p, client);
    assert forall client, responseType :: v.responseMode(p, client, responseType) == w.responseMode(p, client, responseType);
    assert forall client :: v.state(p, client) == ValidateStateAsWritten(p, limits)
                         && w.state(p, client) == Constructed(ValidateState(p, limits));
  }
}
