/**
 * The authorize endpoint's `client_id` validator: the parameter must be
 * present once, within its length limit and VSCHAR; only then is the client
 * store asked for an enabled client with that identifier.
 */
module ClientIdValidation {
  import opened Wrappers
  import opened Text
  import opened ProtocolErrors
  import opened Clients
  import opened RequestParameters
  import opened SyntaxValidators

  /** `IClientService.FindEnabledAsync`: the enabled client with the given identifier, if any. */
  type ClientStore = string -> Option<Client>

  const ClientIdIsMissing := ProtocolError(InvalidRequest, Some("\"client_id\" is missing"))
  const MultipleClientIdValuesNotAllowed :=
    ProtocolError(InvalidRequest, Some("Multiple \"client_id\" values are present, but only one is allowed"))
  const ClientIdIsTooLong := ProtocolError(InvalidRequest, Some("\"client_id\" is too long"))
  const InvalidClientIdSyntax := ProtocolError(InvalidRequest, Some("Invalid \"client_id\" syntax"))
  const UnknownOrDisabledClient := ProtocolError(UnauthorizedClient, Some("Unknown or disabled client"))

  function ValidateClientId(p: Params, limits: Limits, store: ClientStore): (r: Result<Client, ProtocolError>)
    ensures Omitted(p, ClientIdParameter) ==> r == Err(ClientIdIsMissing)
    ensures Repeated(p, ClientIdParameter) ==> r == Err(MultipleClientIdValuesNotAllowed)
    ensures SuppliedOnce(p, ClientIdParameter) ==>
      var v := Value(p, ClientIdParameter);
      r == (if Utf16Length(v) > limits.clientId then Err(ClientIdIsTooLong)
            else if !ClientIdIsValid(v) then Err(InvalidClientIdSyntax)
            else if store(v).None? then Err(UnknownOrDisabledClient)
            else Ok(store(v).value))
    // A success is the store's answer for a present, short enough, VSCHAR identifier.
    ensures r.Ok? ==>
      && SuppliedOnce(p, ClientIdParameter)
      && var v := Value(p, ClientIdParameter);
      && Utf16Length(v) <= limits.clientId && ClientIdIsValid(v) && store(v) == Some(r.value)
    // Every error but the unknown client is an `invalid_request`.
    ensures r.Err? ==> r.error.error in {InvalidRequest, UnauthorizedClient}
  {
    match ReadSingle(p, ClientIdParameter, limits.clientId)
    case Missing => Err(ClientIdIsMissing)
    case Multiple => Err(MultipleClientIdValuesNotAllowed)
    case TooLong => Err(ClientIdIsTooLong)
    case Present(clientId) =>
      if !ClientIdIsValid(clientId) then Err(InvalidClientIdSyntax)
      else
        var client := store(clientId);
        if client.None? then Err(UnknownOrDisabledClient) else Ok(client.value)
  }

  /** The store is consulted only for identifiers that pass every syntactic check. */
  lemma StoreOnlyConsultedForWellFormedIds(p: Params, limits: Limits, store: ClientStore, other: ClientStore)
    requires SuppliedOnce(p, ClientIdParameter) && Utf16Length(Value(p, ClientIdParameter)) <= limits.clientId
             && ClientIdIsValid(Value(p, ClientIdParameter))
             ==> store(Value(p, ClientIdParameter)) == other(Value(p, ClientIdParameter))
    ensures ValidateClientId(p, limits, store) == ValidateClientId(p, limits, other)
  {
  }

  /** A well-formed client the store holds is found by sending its own identifier, within the limit. */
  lemma WellFormedClientFoundByItsId(client: Client, limits: Limits, store: ClientStore)
    requires WellFormed(client) && |client.clientId| <= limits.clientId
    requires store(client.clientId) == Some(client)
    ensures ValidateClientId(map[ClientIdParameter := [client.clientId]], limits, store) == Ok(client)
  {
    var p := map[ClientIdParameter := [client.clientId]];
    WellFormedIdCodeUnits(client);
    assert SuppliedOnce(p, ClientIdParameter) && Value(p, ClientIdParameter) == client.clientId;
  }
}
