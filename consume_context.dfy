/** JsonConsumeContext: the consume context built over one inbound JSON
    envelope. It caches the typed messages it resolves, converts the
    envelope's identifiers and addresses on first read, routes replies and
    faults, and keeps the list of pending work its completion waits for. */
module ConsumeContext {
  import opened Common
  import opened Text
  import opened Conversions
  import opened TypeMatching
  import opened Routing

  /** A lazily filled field agrees with the conversion it caches. */
  predicate Agrees<T(==)>(cached: Option<T>, conversion: Result<Option<T>, Exception>) {
    cached.Some? ==> conversion == Success(cached)
  }

  class JsonConsumeContext {
    const c: Collaborators
    const envelope: MessageEnvelope
    const messageToken: Token
    const supportedTypes: seq<string>

    /** _messageTypes: the per-type resolution cache. */
    var messageTypes: Cache
    /** The types handed to the deserializer so far, in call order. */
    ghost var deserializations: seq<TypeKey>

    /** The lazily filled identity and address fields. */
    var messageId: Option<Guid>
    var requestId: Option<Guid>
    var correlationId: Option<Guid>
    var sourceAddress: Option<Uri>
    var destinationAddress: Option<Uri>
    var responseAddress: Option<Uri>
    var faultAddress: Option<Uri>

    /** _pendingTasks. */
    var pending: seq<PendingWork>

    ghost predicate Valid()
      reads this
    {
      && messageToken == GetMessageToken(envelope.message)
      && supportedTypes == envelope.messageType
      && (forall t :: t in messageTypes ==> messageTypes[t] == Resolve(c, messageToken, supportedTypes, t))
      && (forall i :: 0 <= i < |deserializations| ==>
            deserializations[i] in messageTypes && NeedsDeserializer(c, supportedTypes, deserializations[i]))
      && (forall i, j :: 0 <= i < j < |deserializations| ==> deserializations[i] != deserializations[j])
      && Agrees(messageId, ConvertIdToGuid(envelope.messageId, c.tryParseGuid))
      && Agrees(requestId, ConvertIdToGuid(envelope.requestId, c.tryParseGuid))
      && Agrees(correlationId, ConvertIdToGuid(envelope.correlationId, c.tryParseGuid))
      && Agrees(sourceAddress, ConvertToUri(envelope.sourceAddress, c.parseUri))
      && Agrees(destinationAddress, ConvertToUri(envelope.destinationAddress, c.parseUri))
      && Agrees(responseAddress, ConvertToUri(envelope.responseAddress, c.parseUri))
      && Agrees(faultAddress, ConvertToUri(envelope.faultAddress, c.parseUri))
    }

    /** A lazily filled field, once filled, keeps its value. */
    twostate predicate CachesOnlyFilled()
      reads this
    {
      && (old(messageId).Some? ==> messageId == old(messageId))
      && (old(requestId).Some? ==> requestId == old(requestId))
      && (old(correlationId).Some? ==> correlationId == old(correlationId))
      && (old(sourceAddress).Some? ==> sourceAddress == old(sourceAddress))
      && (old(destinationAddress).Some? ==> destinationAddress == old(destinationAddress))
      && (old(responseAddress).Some? ==> responseAddress == old(responseAddress))
      && (old(faultAddress).Some? ==> faultAddress == old(faultAddress))
    }

    constructor (c: Collaborators, envelope: MessageEnvelope)
      ensures Valid()
      ensures this.c == c && this.envelope == envelope
      ensures messageToken == GetMessageToken(envelope.message) && supportedTypes == envelope.messageType
      ensures messageTypes == map[] && deserializations == [] && pending == []
      ensures messageId == requestId == correlationId == None
      ensures sourceAddress == destinationAddress == responseAddress == faultAddress == None
    {
      this.c := c;
      this.envelope := envelope;
      messageToken := GetMessageToken(envelope.message);
      supportedTypes := envelope.messageType;
      messageTypes := map[];
      deserializations := [];
      messageId, requestId, correlationId := None, None, None;
      sourceAddress, destinationAddress, responseAddress, faultAddress := None, None, None, None;
      pending := [];
    }

    /** HasMessageType: reads the cache and changes nothing. */
    method HasMessageType(t: TypeKey) returns (r: bool)
      requires Valid()
      ensures r == HasMessageTypeIn(messageTypes, c, supportedTypes, t)
      ensures t in messageTypes ==> r == messageTypes[t].Some?
      ensures t !in messageTypes ==>
        (r <==> exists i :: 0 <= i < |supportedTypes| && EqualsIgnoreCase(c.urn(t), supportedTypes[i]))
    {
      if t in messageTypes {
        return messageTypes[t].Some?;
      }
      var typeUrn := c.urn(t);
      r := AnyEqualIgnoringCase(typeUrn, supportedTypes);
    }

    /** TryGetMessage<T>: the first call for t resolves and caches the
        outcome, running the deserializer only for a supported type other
        than the raw token type; every later call returns the cached outcome
        and runs nothing. */
    method TryGetMessage(t: TypeKey) returns (found: bool, message: Option<Message>)
      requires Valid()
      modifies this`messageTypes, this`deserializations
      ensures Valid()
      ensures message == Resolve(c, messageToken, supportedTypes, t) && found == message.Some?
      ensures messageTypes == old(messageTypes)[t := message]
      ensures deserializations == old(deserializations) +
        if t !in old(messageTypes) && NeedsDeserializer(c, supportedTypes, t) then [t] else []
    {
      if t in messageTypes {
        message := messageTypes[t];
        found := message.Some?;
        assert messageTypes == messageTypes[t := message];
        return;
      }
      if t == JTokenType {
        message := Some(Message(JTokenType, messageToken));
        messageTypes := messageTypes[t := message];
        return true, message;
      }
      var typeUrn := c.urn(t);
      if AnyEqual(typeUrn, supportedTypes) {
        var obj := c.deserialize(messageToken, t);
        deserializations := deserializations + [t];
        message := Some(obj);
        messageTypes := messageTypes[t := message];
        return true, message;
      }
      message := None;
      messageTypes := messageTypes[t := message];
      found := false;
    }

    /** The MessageId accessor. */
    method MessageId() returns (r: Result<Option<Guid>, Exception>)
      requires Valid()
      modifies this`messageId
      ensures Valid()
      ensures r == ConvertIdToGuid(envelope.messageId, c.tryParseGuid)
      ensures messageId == if r.Success? then r.value else old(messageId)
    {
      if messageId.Some? {
        return Success(messageId);
      }
      r := ConvertIdToGuid(envelope.messageId, c.tryParseGuid);
      if r.Success? {
        messageId := r.value;
      }
    }

    /** The RequestId accessor. */
    method RequestId() returns (r: Result<Option<Guid>, Exception>)
      requires Valid()
      modifies this`requestId
      ensures Valid()
      ensures r == ConvertIdToGuid(envelope.requestId, c.tryParseGuid)
      ensures requestId == if r.Success? then r.value else old(requestId)
    {
      if requestId.Some? {
        return Success(requestId);
      }
      r := ConvertIdToGuid(envelope.requestId, c.tryParseGuid);
      if r.Success? {
        requestId := r.value;
      }
    }

    /** The CorrelationId accessor. */
    method CorrelationId() returns (r: Result<Option<Guid>, Exception>)
      requires Valid()
      modifies this`correlationId
      ensures Valid()
      ensures r == ConvertIdToGuid(envelope.correlationId, c.tryParseGuid)
      ensures correlationId == if r.Success? then r.value else old(correlationId)
    {
      if correlationId.Some? {
        return Success(correlationId);
      }
      r := ConvertIdToGuid(envelope.correlationId, c.tryParseGuid);
      if r.Success? {
        correlationId := r.value;
      }
    }

    /** The SourceAddress accessor. */
    method SourceAddress() returns (r: Result<Option<Uri>, Exception>)
      requires Valid()
      modifies this`sourceAddress
      ensures Valid()
      ensures r == ConvertToUri(envelope.sourceAddress, c.parseUri)
      ensures sourceAddress == if r.Success? then r.value else old(sourceAddress)
    {
      if sourceAddress.Some? {
        return Success(sourceAddress);
      }
      r := ConvertToUri(envelope.sourceAddress, c.parseUri);
      if r.Success? {
        sourceAddress := r.value;
      }
    }

    /** The DestinationAddress accessor. */
    method DestinationAddress() returns (r: Result<Option<Uri>, Exception>)
      requires Valid()
      modifies this`destinationAddress
      ensures Valid()
      ensures r == ConvertToUri(envelope.destinationAddress, c.parseUri)
      ensures destinationAddress == if r.Success? then r.value else old(destinationAddress)
    {
      if destinationAddress.Some? {
        return Success(destinationAddress);
      }
      r := ConvertToUri(envelope.destinationAddress, c.parseUri);
      if r.Success? {
        destinationAddress := r.value;
      }
    }

    /** The ResponseAddress accessor. */
    method ResponseAddress() returns (r: Result<Option<Uri>, Exception>)
      requires Valid()
      modifies this`responseAddress
      ensures Valid()
      ensures r == ConvertToUri(envelope.responseAddress, c.parseUri)
      ensures responseAddress == if r.Success? then r.value else old(responseAddress)
    {
      if responseAddress.Some? {
        return Success(responseAddress);
      }
      r := ConvertToUri(envelope.responseAddress, c.parseUri);
      if r.Success? {
        responseAddress := r.value;
      }
    }

    /** The FaultAddress accessor. */
    method FaultAddress() returns (r: Result<Option<Uri>, Exception>)
      requires Valid()
      modifies this`faultAddress
      ensures Valid()
      ensures r == ConvertToUri(envelope.faultAddress, c.parseUri)
      ensures faultAddress == if r.Success? then r.value else old(faultAddress)
    {
      if faultAddress.Some? {
        return Success(faultAddress);
      }
      r := ConvertToUri(envelope.faultAddress, c.parseUri);
      if r.Success? {
        faultAddress := r.value;
      }
    }

    /** RespondAsync: reads the response address, then (inside the outbound
        pipe) the request id, and hands the reply to a direct send or to the
        publish endpoint. */
    method RespondAsync(m: Message) returns (outcome: TaskOutcome)
      requires Valid()
      modifies this`responseAddress, this`requestId
      ensures Valid() && CachesOnlyFilled()
      ensures outcome == RespondOutcome(envelope, c, m)
    {
      var address := ResponseAddress();
      if address.Failure? {
        return Faulted(address.error);
      }
      var rid := RequestId();
      if rid.Failure? {
        return Faulted(rid.error);
      }
      var stamps := [SetSourceAddress(c.inputAddress), SetRequestId(rid.value)];
      if address.value.Some? {
        outcome := Completed(Outbound(SendTo(address.value.value), MessagePayload(m), stamps));
      } else {
        outcome := Completed(Outbound(Publish, MessagePayload(m), stamps));
      }
    }

    /** Respond: starts RespondAsync and adds its task to the pending work. */
    method Respond(m: Message)
      requires Valid()
      modifies this`responseAddress, this`requestId, this`pending
      ensures Valid() && CachesOnlyFilled()
      ensures pending == old(pending) + [RespondTask(RespondOutcome(envelope, c, m))]
    {
      var task := RespondAsync(m);
      pending := pending + [RespondTask(task)];
    }

    /** GenerateFault: builds the fault event, reads the response address,
        then (inside the fault pipe) the correlation and request ids and
        every inbound header; sends the fault to the response address, or
        else publishes a Fault<T> built from the original message's values. */
    method GenerateFault(m: Message, x: Exception) returns (outcome: TaskOutcome)
      requires Valid()
      modifies this`responseAddress, this`correlationId, this`requestId
      ensures Valid() && CachesOnlyFilled()
      ensures outcome == FaultOutcome(envelope, c, m, x)
    {
      var fault := Fault(m, c.host, x);
      var address := ResponseAddress();
      if address.Failure? {
        return Faulted(address.error);
      }
      var cid := CorrelationId();
      if cid.Failure? {
        return Faulted(cid.error);
      }
      var rid := RequestId();
      if rid.Failure? {
        return Faulted(rid.error);
      }
      var fixedStamps := [SetSourceAddress(c.inputAddress), SetCorrelationId(cid.value), SetRequestId(rid.value)];
      var stamps := fixedStamps;
      var headers := envelope.headers;
      for i := 0 to |headers|
        invariant stamps == fixedStamps + HeaderStamps(headers[..i])
      {
        assert headers[..i + 1][..i] == headers[..i];
        stamps := stamps + [SetHeader(headers[i].key, headers[i].value)];
      }
      assert headers[..|headers|] == headers;
      if address.value.Some? {
        outcome := Completed(Outbound(SendTo(address.value.value), FaultPayload(fault), stamps));
      } else {
        outcome := Completed(Outbound(Publish, FaultFromValues(m), stamps));
      }
    }

    /** NotifyFaulted: adds the fault task and then the receive context's own
        fault notification, whose ending (receiveFailure) belongs to the
        receive context. */
    method NotifyFaulted(m: Message, consumerType: string, x: Exception, receiveFailure: Option<Exception>)
      requires Valid()
      modifies this`responseAddress, this`correlationId, this`requestId, this`pending
      ensures Valid() && CachesOnlyFilled()
      ensures pending == old(pending) +
        [FaultTask(FaultOutcome(envelope, c, m, x)), ReceiveFaultNotification(m, consumerType, x, receiveFailure)]
    {
      var faultTask := GenerateFault(m, x);
      pending := pending + [FaultTask(faultTask)];
      var receiveTask := ReceiveFaultNotification(m, consumerType, x, receiveFailure);
      pending := pending + [receiveTask];
    }

    /** CompleteTask (Task.WhenAll over the pending work): the errors it ends
        with; none exactly when no pending entry failed. */
    function CompleteTask(): (errors: seq<Exception>)
      reads this
      ensures errors == [] <==> forall i :: 0 <= i < |pending| ==> pending[i].Error().None?
      ensures forall x :: x in errors <==> exists i :: 0 <= i < |pending| && pending[i].Error() == Some(x)
    {
      Failures(pending)
    }
  }

  /** Two requests for the same type give the same outcome, and the
      deserializer runs at most once between them. */
  method TryGetMessageTwice(ctx: JsonConsumeContext, t: TypeKey) returns (first: Option<Message>, second: Option<Message>)
    requires ctx.Valid()
    modifies ctx
    ensures ctx.Valid()
    ensures first == second
    ensures t in ctx.messageTypes && ctx.messageTypes[t] == first
    ensures |ctx.deserializations| <= |old(ctx.deserializations)| + 1
    ensures ctx.pending == old(ctx.pending)
  {
    var found1, found2;
    found1, first := ctx.TryGetMessage(t);
    found2, second := ctx.TryGetMessage(t);
  }

  /** Repeated reads of the lazily converted fields return the same value. */
  method AccessorsAreStable(ctx: JsonConsumeContext)
    returns (id1: Result<Option<Guid>, Exception>, id2: Result<Option<Guid>, Exception>,
             reply1: Result<Option<Uri>, Exception>, reply2: Result<Option<Uri>, Exception>)
    requires ctx.Valid()
    modifies ctx
    ensures ctx.Valid()
    ensures id1 == id2 && reply1 == reply2
    ensures IsNullOrWhiteSpace(ctx.envelope.responseAddress) ==> reply1 == Success(None)
    ensures ctx.pending == old(ctx.pending) && ctx.messageTypes == old(ctx.messageTypes)
  {
    id1 := ctx.MessageId();
    reply1 := ctx.ResponseAddress();
    id2 := ctx.MessageId();
    reply2 := ctx.ResponseAddress();
  }

  /** Of everything a context does, only Respond and NotifyFaulted add
      pending work: resolving types and reading fields leave the list as it
      was, Respond adds one entry and NotifyFaulted adds two. */
  method PendingWorkGrowth(ctx: JsonConsumeContext, t: TypeKey, reply: Message, failed: Message, x: Exception)
    requires ctx.Valid()
    modifies ctx
    ensures ctx.Valid()
    ensures |ctx.pending| == |old(ctx.pending)| + 3
    ensures ctx.pending[..|old(ctx.pending)|] == old(ctx.pending)
    ensures ctx.pending[|old(ctx.pending)|].RespondTask?
    ensures ctx.pending[|old(ctx.pending)| + 1].FaultTask?
    ensures ctx.pending[|old(ctx.pending)| + 2].ReceiveFaultNotification?
  {
    var has := ctx.HasMessageType(t);
    var found, message := ctx.TryGetMessage(t);
    var id := ctx.CorrelationId();
    ctx.Respond(reply);
    ctx.NotifyFaulted(failed, "consumer", x, None);
  }
}
