/** The respond and fault routing of JsonConsumeContext: where a reply or a
    fault goes, what travels with it, and the pending work the context waits
    for before it completes. The outcomes are functions of the envelope, since
    every value they read comes from one of its lazily converted fields. */
module Routing {
  import opened Common
  import opened Conversions

  /** Where an outbound message goes: a direct send to an endpoint address,
      or publication through the publish endpoint. */
  datatype Target = SendTo(address: Uri) | Publish

  /** The fault record built for a failed consumption (FaultEvent<T>). */
  datatype Fault = Fault(message: Message, host: HostInfo, exception: Exception)

  /** What is sent or published: a message as its own type, a full fault
      event, or a Fault<T> message initialised from the values of a message
      (Publish<Fault<T>>(object values, ...)), which carries no host and no
      exception. */
  datatype Payload = MessagePayload(message: Message) | FaultPayload(fault: Fault) | FaultFromValues(values: Message)

  /** One assignment the outbound pipe's filter makes on the send context,
      in the order the filter makes them. */
  datatype Stamp =
    | SetSourceAddress(source: Option<Uri>)
    | SetCorrelationId(correlationId: Option<Guid>)
    | SetRequestId(requestId: Option<Guid>)
    | SetHeader(key: string, value: string)

  /** An outbound action as handed to a send endpoint or the publish endpoint. */
  datatype Outbound = Outbound(target: Target, payload: Payload, stamps: seq<Stamp>)

  /** How the task of RespondAsync or GenerateFault ends: with the outbound
      action handed over, or faulted by an error raised on the way. */
  datatype TaskOutcome = Completed(action: Outbound) | Faulted(error: Exception)

  /** An entry of the context's pending-work list (_pendingTasks). */
  datatype PendingWork =
    | RespondTask(outcome: TaskOutcome)
    | FaultTask(outcome: TaskOutcome)
    | ReceiveFaultNotification(message: Message, consumerType: string, exception: Exception, failure: Option<Exception>)
  {
    /** The error this piece of work ends with, if any. */
    function Error(): Option<Exception> {
      match this
      case RespondTask(o) => if o.Faulted? then Some(o.error) else None
      case FaultTask(o) => if o.Faulted? then Some(o.error) else None
      case ReceiveFaultNotification(_, _, _, f) => f
    }
  }

  /** The header stamps copied from the inbound headers, one per header, in order. */
  function HeaderStamps(headers: seq<Header>): (r: seq<Stamp>)
    ensures |r| == |headers|
    ensures forall i :: 0 <= i < |headers| ==> r[i] == SetHeader(headers[i].key, headers[i].value)
  {
    if headers == [] then []
    else HeaderStamps(headers[..|headers| - 1]) + [SetHeader(headers[|headers| - 1].key, headers[|headers| - 1].value)]
  }

  /** The outcome of RespondAsync(m): the response address is read first; then
      the send pipe stamps the receiving endpoint's input address and the
      request id; the reply is sent to the response address when there is
      one and published otherwise. */
  function RespondOutcome(e: MessageEnvelope, c: Collaborators, m: Message): (r: TaskOutcome)
    ensures r.Completed? ==> r.action.payload == MessagePayload(m)
    ensures r.Completed? && r.action.target.SendTo? ==>
      ConvertToUri(e.responseAddress, c.parseUri) == Success(Some(r.action.target.address))
    ensures r.Completed? && r.action.target.Publish? ==> ConvertToUri(e.responseAddress, c.parseUri) == Success(None)
    ensures r.Completed? ==> |r.action.stamps| == 2 && r.action.stamps[0] == SetSourceAddress(c.inputAddress)
    ensures r.Faulted? ==> r.error.FormatException? || r.error.UriFormatException?
  {
    match ConvertToUri(e.responseAddress, c.parseUri)
    case Failure(err) => Faulted(err)
    case Success(responseAddress) =>
      match ConvertIdToGuid(e.requestId, c.tryParseGuid)
      case Failure(err) => Faulted(err)
      case Success(requestId) =>
        var stamps := [SetSourceAddress(c.inputAddress), SetRequestId(requestId)];
        if responseAddress.Some? then Completed(Outbound(SendTo(responseAddress.value), MessagePayload(m), stamps))
        else Completed(Outbound(Publish, MessagePayload(m), stamps))
  }

  /** The stamps of the fault pipe: source, correlation id, request id, then
      every inbound header. */
  function FaultStamps(c: Collaborators, correlationId: Option<Guid>, requestId: Option<Guid>, headers: seq<Header>): (r: seq<Stamp>)
    ensures |r| == 3 + |headers|
    ensures r[0] == SetSourceAddress(c.inputAddress) && r[1] == SetCorrelationId(correlationId) && r[2] == SetRequestId(requestId)
    ensures forall i :: 0 <= i < |headers| ==> r[3 + i] == SetHeader(headers[i].key, headers[i].value)
  {
    [SetSourceAddress(c.inputAddress), SetCorrelationId(correlationId), SetRequestId(requestId)] + HeaderStamps(headers)
  }

  /** The outcome of GenerateFault(m, x): with a response address the fault
      event is sent there; without one, a Fault<T> built from the values of
      the original message m (not the fault event) is published with the
      fault pipe's stamps: the fault pipe fixes the published type to
      Fault<T>, so the call binds to the overload that takes an object of
      values. */
  function FaultOutcome(e: MessageEnvelope, c: Collaborators, m: Message, x: Exception): (r: TaskOutcome)
    ensures r.Completed? && r.action.target.SendTo? ==>
      && ConvertToUri(e.responseAddress, c.parseUri) == Success(Some(r.action.target.address))
      && r.action.payload == FaultPayload(Fault(m, c.host, x))
    ensures r.Completed? && r.action.target.Publish? ==>
      ConvertToUri(e.responseAddress, c.parseUri) == Success(None) && r.action.payload == FaultFromValues(m)
    ensures r.Completed? ==> |r.action.stamps| == 3 + |e.headers|
    ensures r.Faulted? ==> r.error.FormatException? || r.error.UriFormatException?
  {
    match ConvertToUri(e.responseAddress, c.parseUri)
    case Failure(err) => Faulted(err)
    case Success(responseAddress) =>
      match ConvertIdToGuid(e.correlationId, c.tryParseGuid)
      case Failure(err) => Faulted(err)
      case Success(correlationId) =>
        match ConvertIdToGuid(e.requestId, c.tryParseGuid)
        case Failure(err) => Faulted(err)
        case Success(requestId) =>
          var stamps := FaultStamps(c, correlationId, requestId, e.headers);
          if responseAddress.Some? then Completed(Outbound(SendTo(responseAddress.value), FaultPayload(Fault(m, c.host, x)), stamps))
          else Completed(Outbound(Publish, FaultFromValues(m), stamps))
  }

  /** The errors of a list of pending work, in list order (what Task.WhenAll
      aggregates): an error is reported exactly when some entry ended with it,
      and the list completes cleanly exactly when no entry failed. */
  function Failures(work: seq<PendingWork>): (r: seq<Exception>)
    ensures forall x :: x in r <==> exists i :: 0 <= i < |work| && work[i].Error() == Some(x)
    ensures r == [] <==> forall i :: 0 <= i < |work| ==> work[i].Error().None?
    ensures |r| <= |work|
  {
    if work == [] then []
    else
      var rest := Failures(work[1..]);
      assert forall i :: 1 <= i < |work| ==> work[i] == work[1..][i - 1];
      match work[0].Error()
      case Some(x) => [x] + rest
      case None => rest
  }

  /** Failures over a list that grows at the end: the new entries' errors
      come after the old ones. */
  lemma {:induction false} FailuresAppend(a: seq<PendingWork>, b: seq<PendingWork>)
    ensures Failures(a + b) == Failures(a) + Failures(b)
  {
    if a == [] {
      assert a + b == b;
    } else {
      assert (a + b)[1..] == a[1..] + b;
      FailuresAppend(a[1..], b);
    }
  }

  /** Responding and faulting make the same binary decision: when both get as
      far as handing over a message, they go to the same target, and that
      target is the response address exactly when the envelope has one. */
  lemma RespondAndFaultShareTarget(e: MessageEnvelope, c: Collaborators, m: Message, n: Message, x: Exception)
    requires RespondOutcome(e, c, m).Completed? && FaultOutcome(e, c, n, x).Completed?
    ensures RespondOutcome(e, c, m).action.target == FaultOutcome(e, c, n, x).action.target
    ensures ConvertToUri(e.responseAddress, c.parseUri).Success?
    ensures RespondOutcome(e, c, m).action.target.SendTo? <==> ConvertToUri(e.responseAddress, c.parseUri).value.Some?
  {
  }

  /** Respond routing: with a response address the reply is a direct send
      there and never a publish; without one it is always a publish. Either
      way it carries the input address as source and the request id. */
  lemma RespondRouting(e: MessageEnvelope, c: Collaborators, m: Message, responseAddress: Option<Uri>, requestId: Option<Guid>)
    requires ConvertToUri(e.responseAddress, c.parseUri) == Success(responseAddress)
    requires ConvertIdToGuid(e.requestId, c.tryParseGuid) == Success(requestId)
    ensures RespondOutcome(e, c, m).Completed?
    ensures responseAddress.Some? ==> RespondOutcome(e, c, m).action.target == SendTo(responseAddress.value)
    ensures responseAddress.None? ==> RespondOutcome(e, c, m).action.target == Publish
    ensures RespondOutcome(e, c, m).action.payload == MessagePayload(m)
    ensures RespondOutcome(e, c, m).action.stamps == [SetSourceAddress(c.inputAddress), SetRequestId(requestId)]
  {
  }

  /** Fault routing: with a response address the fault event goes there as
      a direct send; without one a Fault<T> built from the original
      message's values, not the fault event, is published. Both carry the source, correlation id, request id and a copy
      of every inbound header, in order. */
  lemma FaultRouting(e: MessageEnvelope, c: Collaborators, m: Message, x: Exception,
                     responseAddress: Option<Uri>, correlationId: Option<Guid>, requestId: Option<Guid>)
    requires ConvertToUri(e.responseAddress, c.parseUri) == Success(responseAddress)
    requires ConvertIdToGuid(e.correlationId, c.tryParseGuid) == Success(correlationId)
    requires ConvertIdToGuid(e.requestId, c.tryParseGuid) == Success(requestId)
    ensures FaultOutcome(e, c, m, x).Completed?
    ensures responseAddress.Some? ==>
      FaultOutcome(e, c, m, x).action.target == SendTo(responseAddress.value) &&
      FaultOutcome(e, c, m, x).action.payload == FaultPayload(Fault(m, c.host, x))
    ensures responseAddress.None? ==>
      FaultOutcome(e, c, m, x).action.target == Publish &&
      FaultOutcome(e, c, m, x).action.payload == FaultFromValues(m)
    ensures var stamps := FaultOutcome(e, c, m, x).action.stamps;
      && |stamps| == 3 + |e.headers|
      && stamps[..3] == [SetSourceAddress(c.inputAddress), SetCorrelationId(correlationId), SetRequestId(requestId)]
      && forall i :: 0 <= i < |e.headers| ==> stamps[3 + i] == SetHeader(e.headers[i].key, e.headers[i].value)
  {
  }

  /** The only errors respond and fault routing raise themselves are the
      format errors of the envelope fields they read: a reply or fault task
      faults exactly when one of those conversions fails. */
  lemma RoutingFaultsOnlyOnMalformedFields(e: MessageEnvelope, c: Collaborators, m: Message, x: Exception)
    ensures RespondOutcome(e, c, m).Faulted? <==>
      ConvertToUri(e.responseAddress, c.parseUri).Failure? || ConvertIdToGuid(e.requestId, c.tryParseGuid).Failure?
    ensures FaultOutcome(e, c, m, x).Faulted? <==>
      || ConvertToUri(e.responseAddress, c.parseUri).Failure?
      || ConvertIdToGuid(e.correlationId, c.tryParseGuid).Failure?
      || ConvertIdToGuid(e.requestId, c.tryParseGuid).Failure?
    ensures RespondOutcome(e, c, m).Faulted? ==>
      RespondOutcome(e, c, m).error.FormatException? || RespondOutcome(e, c, m).error.UriFormatException?
    ensures FaultOutcome(e, c, m, x).Faulted? ==>
      FaultOutcome(e, c, m, x).error.FormatException? || FaultOutcome(e, c, m, x).error.UriFormatException?
  {
  }
}
