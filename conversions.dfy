/** The static normalisers of JsonConsumeContext: envelope strings to
    identifiers and addresses, and the envelope's message object to the JSON
    token the context deserializes from. */
module Conversions {
  import opened Common
  import opened Text

  /** The text of the FormatException thrown for an identifier that is not a Guid. */
  const NotAGuidMessage: string := "The Id was not a Guid: "

  /** JsonConsumeContext.ConvertIdToGuid: a blank identifier has no value, a
      parseable one is that Guid, and anything else is a format error. */
  function ConvertIdToGuid(id: Option<string>, tryParseGuid: string -> Option<Guid>): (r: Result<Option<Guid>, Exception>)
    ensures r == Success(None) <==> IsNullOrWhiteSpace(id)
    ensures r.Success? && r.value.Some? <==> !IsNullOrWhiteSpace(id) && tryParseGuid(id.value).Some?
    ensures r.Success? && r.value.Some? ==> r.value == tryParseGuid(id.value)
    ensures r.Failure? <==> !IsNullOrWhiteSpace(id) && tryParseGuid(id.value).None?
    ensures r.Failure? ==> r.error == FormatException(NotAGuidMessage + id.value)
  {
    if IsNullOrWhiteSpace(id) then Success(None)
    else
      match tryParseGuid(id.value)
      case Some(g) => Success(Some(g))
      case None => Failure(FormatException(NotAGuidMessage + id.value))
  }

  /** JsonConsumeContext.ConvertToUri: a blank address is absent; any other
      string is what System.Uri makes of it, or a UriFormatException. */
  function ConvertToUri(uri: Option<string>, parseUri: string -> Option<Uri>): (r: Result<Option<Uri>, Exception>)
    ensures r == Success(None) <==> IsNullOrWhiteSpace(uri)
    ensures r.Success? && r.value.Some? <==> !IsNullOrWhiteSpace(uri) && parseUri(uri.value).Some?
    ensures r.Success? && r.value.Some? ==> r.value == parseUri(uri.value)
    ensures r.Failure? ==> !IsNullOrWhiteSpace(uri) && r.error == UriFormatException(uri.value)
  {
    if IsNullOrWhiteSpace(uri) then Success(None)
    else
      match parseUri(uri.value)
      case Some(u) => Success(Some(u))
      case None => Failure(UriFormatException(uri.value))
  }

  /** JsonConsumeContext.GetMessageToken: the token to deserialize from is
      never JSON null; a missing, non-token or null-typed payload becomes an
      empty object and every other token is kept as it is. */
  function GetMessageToken(message: Body): (t: Token)
    ensures t != JNull
    ensures message.JsonBody? && message.token != JNull ==> t == message.token
    ensures !(message.JsonBody? && message.token != JNull) ==> t == JObject([])
  {
    match message
    case JsonBody(token) => if token.JNull? then JObject([]) else token
    case _ => JObject([])
  }

  /** Normalising a token that is already normalised changes nothing. */
  lemma GetMessageTokenIdempotent(message: Body)
    ensures GetMessageToken(JsonBody(GetMessageToken(message))) == GetMessageToken(message)
  {
  }

  /** An identifier written by a formatter that Guid parsing inverts, and that
      never writes a blank string, converts back to the Guid it was made from. */
  lemma ConvertIdToGuidInvertsFormat(g: Guid, format: Guid -> string, tryParseGuid: string -> Option<Guid>)
    requires tryParseGuid(format(g)) == Some(g) && !IsNullOrWhiteSpace(Some(format(g)))
    ensures ConvertIdToGuid(Some(format(g)), tryParseGuid) == Success(Some(g))
  {
  }
}
