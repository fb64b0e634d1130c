# MassTransit consume context and Azure Service Bus send transport, in Dafny

This project models two pieces of MassTransit's dispatch core and proves what they promise.

- **The JSON consume context** (`JsonConsumeContext`). It wraps one inbound message envelope. It does four things:
  - It resolves the envelope's JSON payload into typed messages and caches each outcome per type, including "absent".
  - It answers whether a message type is present.
  - It converts the envelope's identifier and address strings on first read and caches the results.
  - It routes replies and faults, then records the resulting work in a pending list that its completion waits for.
- **The Azure Service Bus send transport** (`AzureServiceBusSendTransport`). It runs the caller's pipe and copies the send context onto a brokered message. Then it notifies pre-send observers, sends the message, and notifies post-send observers. On any failure it notifies send-fault observers and raises an error.

Modules:

- `Common`: shared values (identifiers, addresses, errors, JSON tokens, the envelope).
- `Text`: the .NET whitespace test and the ordinal case-insensitive string compare.
- `Conversions`: the static normalisers.
- `TypeMatching`: URN matching and resolution.
- `Routing`: respond/fault outcomes and pending work.
- `ConsumeContext`: the class, with the per-type cache, the lazily filled fields and the pending list.
- `SendTransport`: the transport, its step trace and the native-field copy.

Collaborators are function-valued parameters in `Common.Collaborators`. They are not implemented here:

- `MessageUrn`
- the JSON deserializer
- `Guid.TryParse`
- `new Uri`
- the receive context's input address
- the host metadata

On the send side, these are supplied as inputs (`SendTransport.Oracles`), one per step:

- the caller's pipe
- the serializer
- the observers
- the message sender

`Guid.ToString("N")` is a parameter too.

In these places the code does something other than what one might expect; the model follows the code:

- A reply stamps only the source address and the request id. It does not stamp the correlation id.
- `HasMessageType` consults the cache first. So after a case-only URN mismatch it changes its answer.
- With no response address, the fault path publishes a `Fault<T>` built from the original message's values, not the fault event. The fault pipe fixes the published type to `Fault<T>`, so the call at `JsonConsumeContext.cs:342` binds to the `Publish<T>(object values, …)` overload (`:310`). The published fault carries no host and no exception.
- On a failed send, the original error is re-raised only when the send-fault notification itself completes. If that notification fails, `Task.Wait` raises an `AggregateException` wrapping the notification's failure instead.

## Model

| member | source | states |
|---|---|---|
| Text.IsWhiteSpace | src/MassTransit/Serialization/JsonConsumeContext.cs:365 | among the ASCII characters exactly space and tab to carriage return are white space; no letter or digit is |
| Text.IsNullOrWhiteSpace | src/MassTransit/Serialization/JsonConsumeContext.cs:365 | null, the empty string and a string made only of ASCII white space are blank; a string with any non-white-space character is not |
| Text.EqualsIgnoreCase | src/MassTransit/Serialization/JsonConsumeContext.cs:157 | two strings are equal ignoring case iff they have the same length and agree character by character after upper-casing; equal strings always are |
| Text.ToUpperOrdinal | src/MassTransit/Serialization/JsonConsumeContext.cs:157 | a lower-case ASCII letter maps to its upper-case letter; every other character maps to itself |
| Conversions.ConvertIdToGuid | src/MassTransit/Serialization/JsonConsumeContext.cs:363-373 | null or white-space input gives no value, and nothing else does; a parseable id gives exactly the parsed Guid; any other input is a FormatException "The Id was not a Guid: " + id |
| Conversions.ConvertToUri | src/MassTransit/Serialization/JsonConsumeContext.cs:380-386 | a blank address is absent, and only a blank one is; any other string is the parsed Uri or a UriFormatException for that string |
| Conversions.GetMessageToken | src/MassTransit/Serialization/JsonConsumeContext.cs:345-355 | the result is never JSON null; a non-null token is kept unchanged; a missing, non-token or null payload becomes an empty object |
| Conversions.GetMessageTokenIdempotent | src/MassTransit/Serialization/JsonConsumeContext.cs:345-355 | normalising an already normalised token changes nothing |
| Conversions.ConvertIdToGuidInvertsFormat | src/MassTransit/Serialization/JsonConsumeContext.cs:363-373 | a Guid written by a formatter that Guid parsing inverts, as a non-blank string, converts back to the same Guid |
| TypeMatching.AnyEqual | src/MassTransit/Serialization/JsonConsumeContext.cs:180 | true iff some supported type equals the URN case-sensitively |
| TypeMatching.AnyEqualIgnoringCase | src/MassTransit/Serialization/JsonConsumeContext.cs:157 | true iff some supported type equals the URN ignoring case |
| TypeMatching.Resolve | src/MassTransit/Serialization/JsonConsumeContext.cs:172-197 | the raw token type always resolves to the token itself; any other type resolves iff its URN is case-sensitively in the supported list, and then to the deserializer's result |
| TypeMatching.HasMessageTypeIn | src/MassTransit/Serialization/JsonConsumeContext.cs:146-158 | a cached entry decides by itself (present or absent); with no entry the answer is whether the URN matches some supported type ignoring case |
| TypeMatching.ExactMatchIsCaseInsensitiveMatch | src/MassTransit/Serialization/JsonConsumeContext.cs:155-180 | a case-sensitive match is also a case-insensitive one |
| TypeMatching.HasMessageTypeAfterResolve | src/MassTransit/Serialization/JsonConsumeContext.cs:150-152 | once a type's resolution is cached, HasMessageType answers exactly whether that resolution found a message |
| TypeMatching.FoundTypeIsReportedBeforeAndAfter | src/MassTransit/Serialization/JsonConsumeContext.cs:146-158 | a non-raw type that TryGetMessage finds is reported present by HasMessageType both before and after it is cached |
| TypeMatching.CaseOnlyMismatchFlipsHasMessageType | src/MassTransit/Serialization/JsonConsumeContext.cs:146-197 | when the URN matches a supported type only up to case, HasMessageType is true before TryGetMessage, the resolution is absent, and HasMessageType is false after |
| TypeMatching.CaseOnlyMismatchExample | src/MassTransit/Serialization/JsonConsumeContext.cs:146-197 | the flip on a concrete envelope: URN "urn:Ping" against the supported list ["urn:ping"] |
| TypeMatching.HasMessageTypeIgnoresOrder | src/MassTransit/Serialization/JsonConsumeContext.cs:157 | with no cache entry, HasMessageType gives the same answer for any permutation of the supported types |
| Routing.HeaderStamps | src/MassTransit/Serialization/JsonConsumeContext.cs:331-332 | one header stamp per inbound header, with the same key and value, in the same order |
| Routing.RespondOutcome | src/MassTransit/Serialization/JsonConsumeContext.cs:201-231 | a completed reply carries the original message and two stamps, the first the input address as source; it is sent directly exactly to the parsed response address, and published only when that address is blank; a faulted reply fails only with a format error |
| Routing.FaultStamps | src/MassTransit/Serialization/JsonConsumeContext.cs:325-333 | source, correlation id and request id, then one header stamp per inbound header, in order |
| Routing.FaultOutcome | src/MassTransit/Serialization/JsonConsumeContext.cs:320-343 | a direct send goes to the parsed response address and carries the fault event; a publish happens only with a blank response address and carries a Fault<T> built from the original message's values; three stamps plus one per header; a faulted task fails only with a format error |
| Routing.Failures | src/MassTransit/Serialization/JsonConsumeContext.cs:136-139 | an error is reported iff some pending entry ended with it; no errors iff no entry failed |
| Routing.FailuresAppend | src/MassTransit/Serialization/JsonConsumeContext.cs:136-139 | the errors of appended pending work come after the errors already there |
| Routing.RespondAndFaultShareTarget | src/MassTransit/Serialization/JsonConsumeContext.cs:204-342 | a reply and a fault from the same context go to the same target, which is a direct send iff the envelope has a response address |
| Routing.RespondRouting | src/MassTransit/Serialization/JsonConsumeContext.cs:201-231 | with a response address the reply goes only to a direct send there; without one it is only published; it carries the original message, the input address as source and the request id |
| Routing.FaultRouting | src/MassTransit/Serialization/JsonConsumeContext.cs:320-343 | with a response address the fault event is sent there; without one a Fault<T> built from the original message's values is published; either way the stamps are source, correlation id, request id, then a copy of every inbound header in order |
| Routing.RoutingFaultsOnlyOnMalformedFields | src/MassTransit/Serialization/JsonConsumeContext.cs:320-343 | a reply or fault task faults iff one of the envelope fields it reads fails to convert, and then only with a format error |
| ConsumeContext.JsonConsumeContext.constructor | src/MassTransit/Serialization/JsonConsumeContext.cs:50-62 | the context starts with the normalised token, the envelope's supported types, an empty cache, empty pending work and no filled fields |
| ConsumeContext.JsonConsumeContext.HasMessageType | src/MassTransit/Serialization/JsonConsumeContext.cs:146-158 | answers from the cache entry when there is one, otherwise by case-insensitive URN match; changes nothing |
| ConsumeContext.JsonConsumeContext.TryGetMessage | src/MassTransit/Serialization/JsonConsumeContext.cs:160-199 | returns the type's resolution and caches it; the deserializer runs only on the first request for a supported non-raw type; the cache stays consistent and no type is ever deserialized twice |
| ConsumeContext.JsonConsumeContext.MessageId | src/MassTransit/Serialization/JsonConsumeContext.cs:81-84 | returns the conversion of the envelope's message id on every read; the field is filled only by a successful conversion |
| ConsumeContext.JsonConsumeContext.RequestId | src/MassTransit/Serialization/JsonConsumeContext.cs:86-89 | as MessageId, for the request id |
| ConsumeContext.JsonConsumeContext.CorrelationId | src/MassTransit/Serialization/JsonConsumeContext.cs:91-94 | as MessageId, for the correlation id |
| ConsumeContext.JsonConsumeContext.SourceAddress | src/MassTransit/Serialization/JsonConsumeContext.cs:101-104 | returns the conversion of the envelope's source address on every read; blank reads as absent |
| ConsumeContext.JsonConsumeContext.DestinationAddress | src/MassTransit/Serialization/JsonConsumeContext.cs:106-109 | as SourceAddress, for the destination address |
| ConsumeContext.JsonConsumeContext.ResponseAddress | src/MassTransit/Serialization/JsonConsumeContext.cs:111-114 | as SourceAddress, for the response address |
| ConsumeContext.JsonConsumeContext.FaultAddress | src/MassTransit/Serialization/JsonConsumeContext.cs:116-119 | as SourceAddress, for the fault address |
| ConsumeContext.JsonConsumeContext.RespondAsync | src/MassTransit/Serialization/JsonConsumeContext.cs:201-232 | computes the respond outcome of the envelope; filled fields keep their values |
| ConsumeContext.JsonConsumeContext.Respond | src/MassTransit/Serialization/JsonConsumeContext.cs:234-240 | appends exactly one pending entry, the reply task, and changes no other pending entry |
| ConsumeContext.JsonConsumeContext.GenerateFault | src/MassTransit/Serialization/JsonConsumeContext.cs:320-343 | computes the fault outcome, copying the headers one by one in a loop |
| ConsumeContext.JsonConsumeContext.NotifyFaulted | src/MassTransit/Serialization/JsonConsumeContext.cs:257-267 | appends exactly two pending entries: the fault task, then the receive context's fault notification |
| ConsumeContext.JsonConsumeContext.CompleteTask | src/MassTransit/Serialization/JsonConsumeContext.cs:136-139 | completion fails iff some pending entry failed, with exactly the errors of the failed entries |
| ConsumeContext.TryGetMessageTwice | src/MassTransit/Serialization/JsonConsumeContext.cs:163-170 | two requests for one type give the same outcome, leave it cached, run the deserializer at most once and leave the pending work alone |
| ConsumeContext.AccessorsAreStable | src/MassTransit/Serialization/JsonConsumeContext.cs:81-119 | repeated reads of a lazily converted field give the same value; a blank response address reads as absent |
| ConsumeContext.PendingWorkGrowth | src/MassTransit/Serialization/JsonConsumeContext.cs:234-267 | type lookups and field reads add no pending work; Respond adds one entry and NotifyFaulted adds two, after the old ones |
| SendTransport.NativeFields | src/MassTransit.AzureServiceBusTransport/AzureServiceBusSendTransport.cs:56-66 | content type and durability are always copied; time to live and the two ids only when present, the ids in N format; absence is not an error |
| SendTransport.Fail | src/MassTransit.AzureServiceBusTransport/AzureServiceBusSendTransport.cs:76-81 | the send-fault notification is appended as one last step and the send raises: the caught error when the notification completes, otherwise an AggregateException over the notification's failure |
| SendTransport.RunSend | src/MassTransit.AzureServiceBusTransport/AzureServiceBusSendTransport.cs:44-83 | every send starts with the pipe step; it raises iff it notifies a send fault; the only message ever handed to the sender is the post-pipe context copied onto a brokered message |
| SendTransport.Reached | src/MassTransit.AzureServiceBusTransport/AzureServiceBusSendTransport.cs:50-72 | a send performs at least the pipe step and at most all four; all four exactly when the pipe, the body, the pre-send notification and the physical send succeed |
| SendTransport.TraceShape | src/MassTransit.AzureServiceBusTransport/AzureServiceBusSendTransport.cs:48-81 | a trace is Pipe, PreSend, PhysicalSend, PostSend cut off after the step that failed, followed by SendFault iff the send fails; the sender is handed a message iff the physical send is reached; the error is the first failure in the try block, or the AggregateException of a failed fault notification |
| SendTransport.SuccessTrace | src/MassTransit.AzureServiceBusTransport/AzureServiceBusSendTransport.cs:50-72 | a send succeeds iff its trace is exactly Pipe, PreSend, PhysicalSend, PostSend, and then SendFault does not occur |
| SendTransport.FaultNotifiedOnce | src/MassTransit.AzureServiceBusTransport/AzureServiceBusSendTransport.cs:76-81 | a failed send notifies SendFault exactly once, as the last step before raising |
| SendTransport.PipeFailureSendsNothing | src/MassTransit.AzureServiceBusTransport/AzureServiceBusSendTransport.cs:50-70 | if the pipe fails, neither PreSend nor PhysicalSend occurs and nothing reaches the sender |
| SendTransport.BodyOrPreSendFailureSendsNothing | src/MassTransit.AzureServiceBusTransport/AzureServiceBusSendTransport.cs:52-70 | if building the message or the pre-send notification fails, there is no physical send and no post-send notification, nothing reaches the sender, and the send fails |
| SendTransport.PhysicalFailureSkipsPostSend | src/MassTransit.AzureServiceBusTransport/AzureServiceBusSendTransport.cs:70-72 | if the physical send fails, PostSend never occurs and the send fails |
| SendTransport.PostSendFailureStillFaults | src/MassTransit.AzureServiceBusTransport/AzureServiceBusSendTransport.cs:72-81 | a failing post-send notification still faults the send after the message was physically sent |
| SendTransport.NotificationsOrdered | src/MassTransit.AzureServiceBusTransport/AzureServiceBusSendTransport.cs:68-72 | PreSend comes before PhysicalSend, and PostSend after it |
| SendTransport.HandedMessageIsCopiedContext | src/MassTransit.AzureServiceBusTransport/AzureServiceBusSendTransport.cs:52-70 | once past the body and the pre-send step, the sender gets the post-pipe context copied onto a brokered message |
| SendTransport.NativeIdsReadBack | src/MassTransit.AzureServiceBusTransport/AzureServiceBusSendTransport.cs:62-66 | the message and correlation ids written onto the brokered message convert back, through the consume side's ConvertIdToGuid, to the context's own ids, when Guid parsing inverts the formatter and it never writes a blank string |
| SendTransport.MessageSender.constructor | src/MassTransit.AzureServiceBusTransport/AzureServiceBusSendTransport.cs:36 | the sender starts with nothing handed to it |
| SendTransport.MessageSender.SendAsync | src/MassTransit.AzureServiceBusTransport/AzureServiceBusSendTransport.cs:70 | the message is handed to the sender, which ends as its failure input says |
| SendTransport.BrokeredMessage.constructor | src/MassTransit.AzureServiceBusTransport/AzureServiceBusSendTransport.cs:54 | a fresh brokered message has none of the transport-set fields assigned |
| SendTransport.AzureServiceBusSendTransport.constructor | src/MassTransit.AzureServiceBusTransport/AzureServiceBusSendTransport.cs:38-42 | the observer registry starts empty |
| SendTransport.AzureServiceBusSendTransport.Send | src/MassTransit.AzureServiceBusTransport/AzureServiceBusSendTransport.cs:44-83 | each step is taken in order, fields are assigned one by one on a brokered message, and the trace and error are those of RunSend; the sender gets the copied message iff the physical send was reached |
| SendTransport.AzureServiceBusSendTransport.Catch | src/MassTransit.AzureServiceBusTransport/AzureServiceBusSendTransport.cs:76-81 | the method counterpart of Fail: SendFault appended to the steps done, then the caught error re-raised, or an AggregateException if the fault notification failed |
| SendTransport.AzureServiceBusSendTransport.Move | src/MassTransit.AzureServiceBusTransport/AzureServiceBusSendTransport.cs:85-88 | always fails with NotImplementedException, whatever the argument |
| SendTransport.AzureServiceBusSendTransport.Connect | src/MassTransit.AzureServiceBusTransport/AzureServiceBusSendTransport.cs:90-93 | appends the observer to the registry and changes nothing else |

## Left out

- Locks (`JsonConsumeContext.cs:148,163`) and asynchrony: the model is sequential. Each task is represented by how it ends, and `Task.WhenAll` by the errors of the pending entries.
- Cancellation: the cancellation token, and `Wait(cancelSend)` surfacing a cancellation instead of the original error (`AzureServiceBusSendTransport.cs:79`), are not modelled.
- JSON deserialization and interface proxy generation (`JsonConsumeContext.cs:183-190`) are one abstract total function. Deserializer exceptions and failing casts are not modelled.
- `MessageUrn`, `Guid.TryParse`, `new Uri`, `Guid.ToString("N")` and the host metadata are abstract parameters. Their own syntax and formats are not part of this model.
- Text.EqualsIgnoreCase: only the ASCII letters are case-folded. The rest of the Unicode upper-case table that `OrdinalIgnoreCase` uses is not modelled.
- Text.ToUpperOrdinal: only a-z are upper-cased; a non-ASCII letter such as 'é' maps to itself, where `OrdinalIgnoreCase` maps it to 'É'. The Unicode upper-case table is not modelled.
- A null envelope message-type list (`ToArray` would throw) and null entries in it are not modelled. The supported types are a list of strings.
- The publish endpoint: `_publishEndpoint` is set to null at `JsonConsumeContext.cs:60` and never assigned in this file. As written, the publish branches would dereference null. The model records the publish as an outbound action handed to a collaborator.
- How the publish endpoint builds a `Fault<T>` from an object of values (matching property names) is not modelled. The model records the values object handed over (`FaultFromValues`).
- Sending on and looking up endpoints (`GetSendEndpoint`, `endpoint.Send`, `Publish`): their own failures are not modelled. A completed outcome means the action was handed over.
- The lazily built `ContextHeaders` object (`JsonConsumeContext.cs:121-124`) is not modelled. The fault path copies the envelope's header list directly.
- Pure forwarding members: the `Publish` overloads, payload forwarding to the receive context, `ExpirationTime`, `CancellationToken`, `ReceiveContext`, `SupportedMessageTypes`, `NotifyConsumed`, `GetSendEndpoint`, and `RetryLater`, which always throws.
- Observer fan-out inside the registry (`Connectable`: per-observer calls, failure aggregation, handle disposal) is not part of this model. Each notification round is one trace step whose ending is an input. `Connect` returns a handle naming the observer.
- SendTransport.NativeFields: copying the time to live never fails. The Service Bus SDK's `BrokeredMessage.TimeToLive` setter rejects a zero or negative value with an `ArgumentOutOfRangeException`, which would be raised inside the try block and lead to a send fault. That check belongs to the SDK, not to this transport, and is not modelled.
- SendTransport.AzureServiceBusSendTransport.Send: for the same reason, a non-positive time to live does not fail the send in the model.
- A null `ContentType` on the send context (the `MediaType` dereference at `AzureServiceBusSendTransport.cs:56`) is not modelled. The body stream and the brokered message's construction are one step that may fail.
- InstanceSubscriptionExtensions.cs and the two test files are not part of this model. The former holds thin configuration wrappers; the test bodies of the latter are commented out.
