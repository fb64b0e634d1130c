/** Values shared by the consume context and the send transport: optional and
    failing results, identifiers, addresses, the errors the core raises, JSON
    tokens, message envelopes, and the collaborators the core calls but does
    not implement. */
module Common {

  datatype Option<+T> = None | Some(value: T)

  datatype Result<+R, +E> = Success(value: R) | Failure(error: E)

  /** A 128-bit unique identifier (System.Guid). */
  type Guid = g: nat | g < 0x1_0000_0000_0000_0000_0000_0000_0000_0000

  /** A parsed absolute address (System.Uri); its structure is left to the parser. */
  datatype Uri = Uri(text: string)

  /** A duration (System.TimeSpan), counted in ticks. */
  type TimeSpan = int

  /** The errors the modelled code raises or passes on. */
  datatype Exception =
    | FormatException(message: string)          // an identifier that is not a Guid
    | UriFormatException(text: string)          // an address that System.Uri rejects
    | NotImplementedException                   // a capability the transport lacks
    | AggregateException(inner: seq<Exception>) // Task.Wait over a faulted task
    | Raised(name: string)                      // any error thrown by a collaborator

  /** A Newtonsoft JSON token (JToken); only its shape matters here. */
  datatype Token =
    | JNull
    | JValue(text: string)
    | JArray(items: seq<Token>)
    | JObject(properties: seq<(string, Token)>)

  /** The object stored in the envelope's Message property: nothing (null),
      some object that is not a JSON token, or a JSON token. */
  datatype Body = NullBody | OtherObject(description: string) | JsonBody(token: Token)

  /** A CLR type a consumer may ask for; JTokenType is typeof(JToken). */
  datatype TypeKey = JTokenType | MessageType(fullName: string)

  /** A message value: the type it was built as and its content as JSON. */
  datatype Message = Message(messageType: TypeKey, content: Token)

  datatype Header = Header(key: string, value: string)

  /** The host identity a fault event carries (HostMetadataCache.Host). */
  datatype HostInfo = HostInfo(description: string)

  /** The wire envelope a JSON consume context wraps (MessageEnvelope).
      Strings are nullable in the source, hence Option<string>. */
  datatype MessageEnvelope = MessageEnvelope(
    messageId: Option<string>,
    requestId: Option<string>,
    correlationId: Option<string>,
    sourceAddress: Option<string>,
    destinationAddress: Option<string>,
    responseAddress: Option<string>,
    faultAddress: Option<string>,
    headers: seq<Header>,
    message: Body,
    messageType: seq<string>)

  /** The transport's view of a received message (ReceiveContext), as far as
      this model needs it. */
  datatype ReceiveContext = ReceiveContext(envelope: MessageEnvelope)

  /** The collaborators of the consume context that this model keeps abstract:
      - urn: MessageUrn(type).ToString();
      - deserialize: the JSON serializer reading a token as the given type;
      - tryParseGuid: Guid.TryParse;
      - parseUri: new Uri(s), None where it throws;
      - inputAddress: ReceiveContext.InputAddress;
      - host: HostMetadataCache.Host. */
  datatype Collaborators = Collaborators(
    urn: TypeKey -> string,
    deserialize: (Token, TypeKey) -> Message,
    tryParseGuid: string -> Option<Guid>,
    parseUri: string -> Option<Uri>,
    inputAddress: Option<Uri>,
    host: HostInfo)
}
