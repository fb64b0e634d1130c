/** AzureServiceBusSendTransport: sends one message through a caller's pipe,
    copies the send context onto a native brokered message, tells observers
    before and after the physical send, and on any failure tells them of the
    fault and re-raises. */
module SendTransport {
  import opened Common
  import opened Text
  import opened Conversions

  /** The fields of the outbound send context that reach the native message
      (AzureServiceBusSendContextImpl after the caller's pipe has run). */
  datatype SendContext = SendContext(
    contentType: string,       // ContentType.MediaType
    durable: bool,
    timeToLive: Option<TimeSpan>,
    messageId: Option<Guid>,
    correlationId: Option<Guid>)

  /** The fields of a brokered message the transport sets; None means the
      brokered message's own default was left in place. */
  datatype NativeMessage = NativeMessage(
    contentType: Option<string>,
    forcePersistence: bool,
    timeToLive: Option<TimeSpan>,
    messageId: Option<string>,
    correlationId: Option<string>)

  /** The steps of one send, in the order they may happen. */
  datatype Event = Pipe | PreSend | PhysicalSend | PostSend | SendFault

  /** How each step that can fail ends, supplied from outside: the caller's
      pipe (which may also change the context), building the body and the
      brokered message, the pre-send observers, the physical send, the
      post-send observers, and the send-fault observers. */
  datatype Oracles = Oracles(
    pipe: SendContext -> Result<SendContext, Exception>,
    body: Option<Exception>,
    preSend: Option<Exception>,
    physicalSend: Option<Exception>,
    postSend: Option<Exception>,
    sendFault: Option<Exception>)

  /** What one send produced: its steps, the error it raises if any, and the
      native message handed to the message sender if it got that far. */
  datatype SendRun = SendRun(trace: seq<Event>, error: Option<Exception>, handed: Option<NativeMessage>)

  /** A subscriber to send notifications, and the handle Connect gives back. */
  datatype Observer = Observer(name: string)
  datatype ConnectHandle = ConnectHandle(observer: Observer)

  /** The send steps of the try block, in order. */
  const Steps: seq<Event> := [Pipe, PreSend, PhysicalSend, PostSend]

  /** The brokered message's fields once the send context has been copied
      onto a fresh one: content type and durability always, time to live and
      the two identifiers only when the context has them, the identifiers
      written by format (Guid.ToString("N")). */
  function NativeFields(ctx: SendContext, format: Guid -> string): (n: NativeMessage)
    ensures n.contentType == Some(ctx.contentType) && n.forcePersistence == ctx.durable
    ensures n.timeToLive == ctx.timeToLive
    ensures n.messageId.Some? <==> ctx.messageId.Some?
    ensures ctx.messageId.Some? ==> n.messageId.value == format(ctx.messageId.value)
    ensures n.correlationId.Some? <==> ctx.correlationId.Some?
    ensures ctx.correlationId.Some? ==> n.correlationId.value == format(ctx.correlationId.value)
  {
    NativeMessage(
      Some(ctx.contentType),
      ctx.durable,
      ctx.timeToLive,
      if ctx.messageId.Some? then Some(format(ctx.messageId.value)) else None,
      if ctx.correlationId.Some? then Some(format(ctx.correlationId.value)) else None)
  }

  /** The catch block: the send-fault notification runs and is waited for;
      the original error is re-raised, unless the notification itself failed,
      in which case the wait raises that failure wrapped in an
      AggregateException. */
  function Fail(done: seq<Event>, error: Exception, o: Oracles, handed: Option<NativeMessage>): (r: SendRun)
    ensures r.error.Some? && r.handed == handed
    ensures |r.trace| == |done| + 1 && r.trace[..|done|] == done && r.trace[|done|] == SendFault
    ensures o.sendFault.None? ==> r.error == Some(error)
    ensures o.sendFault.Some? ==> r.error.value.AggregateException? && r.error.value.inner == [o.sendFault.value]
  {
    SendRun(done + [SendFault],
            Some(if o.sendFault.Some? then AggregateException([o.sendFault.value]) else error),
            handed)
  }

  /** ISendTransport.Send, step by step. Every send starts with the pipe,
      raises exactly when it notifies a send fault, and hands the sender
      only the post-pipe context copied onto a brokered message. */
  function RunSend(ctx0: SendContext, o: Oracles, format: Guid -> string): (r: SendRun)
    ensures |r.trace| >= 1 && r.trace[0] == Pipe
    ensures r.error.Some? <==> SendFault in r.trace
    ensures r.handed.Some? ==> o.pipe(ctx0).Success? && r.handed.value == NativeFields(o.pipe(ctx0).value, format)
  {
    match o.pipe(ctx0)
    case Failure(e) => Fail([Pipe], e, o, None)
    case Success(ctx) =>
      if o.body.Some? then Fail([Pipe], o.body.value, o, None)
      else
        var native := NativeFields(ctx, format);
        if o.preSend.Some? then Fail([Pipe, PreSend], o.preSend.value, o, None)
        else if o.physicalSend.Some? then Fail([Pipe, PreSend, PhysicalSend], o.physicalSend.value, o, Some(native))
        else if o.postSend.Some? then Fail(Steps, o.postSend.value, o, Some(native))
        else SendRun(Steps, None, Some(native))
  }

  /** The first error raised inside the try block, if any, as a reference
      for the outcome of a send. */
  function FirstFailure(ctx0: SendContext, o: Oracles): Option<Exception> {
    if o.pipe(ctx0).Failure? then Some(o.pipe(ctx0).error)
    else if o.body.Some? then o.body
    else if o.preSend.Some? then o.preSend
    else if o.physicalSend.Some? then o.physicalSend
    else o.postSend
  }

  /** How many of the send steps a send performs: the pipe step always; the
      pre-send notification once the pipe and building the message succeed;
      the physical send once the pre-send notification succeeds; the
      post-send notification once the physical send succeeds. */
  function Reached(ctx0: SendContext, o: Oracles): (k: nat)
    ensures 1 <= k <= |Steps|
    ensures k == |Steps| <==> o.pipe(ctx0).Success? && o.body.None? && o.preSend.None? && o.physicalSend.None?
  {
    if o.pipe(ctx0).Failure? || o.body.Some? then 1
    else if o.preSend.Some? then 2
    else if o.physicalSend.Some? then 3
    else 4
  }

  /** Every trace is the send steps up to the one that failed (all four when
      none did), followed by one send-fault notification exactly when the
      send fails; the error is the first failure inside the try block,
      re-raised as it is when the fault notification completes; the sender
      is handed a message exactly when the physical send is reached. */
  lemma TraceShape(ctx0: SendContext, o: Oracles, format: Guid -> string)
    ensures var r := RunSend(ctx0, o, format);
      && r.trace == Steps[..Reached(ctx0, o)] + (if r.error.Some? then [SendFault] else [])
      && (r.error.Some? <==> FirstFailure(ctx0, o).Some?)
      && (r.error.Some? && o.sendFault.None? ==> r.error == FirstFailure(ctx0, o))
      && (r.error.Some? && o.sendFault.Some? ==> r.error == Some(AggregateException([o.sendFault.value])))
      && (r.handed.Some? <==> Reached(ctx0, o) >= 3)
  {
    var r := RunSend(ctx0, o, format);
    if o.pipe(ctx0).Failure? || o.body.Some? {
      assert r.trace == Steps[..1] + [SendFault];
    } else if o.preSend.Some? {
      assert r.trace == Steps[..2] + [SendFault];
    } else if o.physicalSend.Some? {
      assert r.trace == Steps[..3] + [SendFault];
    } else if o.postSend.Some? {
      assert r.trace == Steps[..4] + [SendFault];
    } else {
      assert r.trace == Steps[..4];
    }
  }

  /** A send succeeds exactly when its trace is the four send steps, and then
      no send-fault notification occurs. */
  lemma SuccessTrace(ctx0: SendContext, o: Oracles, format: Guid -> string)
    ensures RunSend(ctx0, o, format).error.None? <==> RunSend(ctx0, o, format).trace == Steps
    ensures RunSend(ctx0, o, format).error.None? ==> SendFault !in RunSend(ctx0, o, format).trace
  {
    var r := RunSend(ctx0, o, format);
    if r.error.Some? {
      TraceShape(ctx0, o, format);
      var k := Reached(ctx0, o);
      assert r.trace[k] == SendFault;
      assert k < |Steps| ==> Steps[k] != SendFault;
    }
  }

  /** A failing send notifies the send-fault observers exactly once, as the
      last step, after which the error is raised. */
  lemma FaultNotifiedOnce(ctx0: SendContext, o: Oracles, format: Guid -> string)
    requires RunSend(ctx0, o, format).error.Some?
    ensures var t := RunSend(ctx0, o, format).trace;
      |t| > 0 && t[|t| - 1] == SendFault && SendFault !in t[..|t| - 1]
  {
    TraceShape(ctx0, o, format);
    var t := RunSend(ctx0, o, format).trace;
    var k := Reached(ctx0, o);
    assert t[..|t| - 1] == Steps[..k];
  }

  /** If the caller's pipe fails, the message is neither announced nor sent. */
  lemma PipeFailureSendsNothing(ctx0: SendContext, o: Oracles, format: Guid -> string)
    requires o.pipe(ctx0).Failure?
    ensures PreSend !in RunSend(ctx0, o, format).trace
    ensures PhysicalSend !in RunSend(ctx0, o, format).trace
    ensures RunSend(ctx0, o, format).handed.None?
  {
  }

  /** If building the message or the pre-send notification fails, the send
      stops there: the message is never physically sent, no post-send
      notification follows, the sender is handed nothing and the send fails. */
  lemma BodyOrPreSendFailureSendsNothing(ctx0: SendContext, o: Oracles, format: Guid -> string)
    requires o.pipe(ctx0).Success? && (o.body.Some? || o.preSend.Some?)
    ensures PhysicalSend !in RunSend(ctx0, o, format).trace
    ensures PostSend !in RunSend(ctx0, o, format).trace
    ensures RunSend(ctx0, o, format).handed.None?
    ensures RunSend(ctx0, o, format).error.Some?
  {
    TraceShape(ctx0, o, format);
    var t := RunSend(ctx0, o, format).trace;
    assert t == Steps[..Reached(ctx0, o)] + [SendFault];
    assert Reached(ctx0, o) <= 2;
  }

  /** If the physical send fails, no post-send notification follows. */
  lemma PhysicalFailureSkipsPostSend(ctx0: SendContext, o: Oracles, format: Guid -> string)
    requires PhysicalSend in RunSend(ctx0, o, format).trace && o.physicalSend.Some?
    ensures PostSend !in RunSend(ctx0, o, format).trace
    ensures RunSend(ctx0, o, format).error.Some?
  {
  }

  /** A failing post-send notification still raises and notifies the fault,
      although the message was already sent. */
  lemma PostSendFailureStillFaults(ctx0: SendContext, o: Oracles, format: Guid -> string)
    requires o.pipe(ctx0).Success? && o.body.None? && o.preSend.None? && o.physicalSend.None?
    requires o.postSend.Some?
    ensures PhysicalSend in RunSend(ctx0, o, format).trace
    ensures RunSend(ctx0, o, format).handed.Some?
    ensures SendFault in RunSend(ctx0, o, format).trace
    ensures RunSend(ctx0, o, format).error.Some?
  {
  }

  /** The pre-send notification comes before the physical send, and the
      post-send notification after it. */
  lemma NotificationsOrdered(ctx0: SendContext, o: Oracles, format: Guid -> string, i: nat, j: nat)
    requires var t := RunSend(ctx0, o, format).trace; i < |t| && j < |t|
    requires RunSend(ctx0, o, format).trace[i] == PreSend && RunSend(ctx0, o, format).trace[j] == PhysicalSend
    ensures i < j
    ensures forall k :: 0 <= k < |RunSend(ctx0, o, format).trace| && RunSend(ctx0, o, format).trace[k] == PostSend ==> j < k
  {
    TraceShape(ctx0, o, format);
  }

  /** The message handed to the sender is the context after the pipe,
      copied onto a brokered message; whatever optional fields the context
      lacks, the copy does not fail. */
  lemma HandedMessageIsCopiedContext(ctx0: SendContext, o: Oracles, format: Guid -> string)
    requires o.pipe(ctx0).Success? && o.body.None? && o.preSend.None?
    ensures RunSend(ctx0, o, format).handed == Some(NativeFields(o.pipe(ctx0).value, format))
    ensures PhysicalSend in RunSend(ctx0, o, format).trace
  {
  }

  /** The identifiers the transport writes onto the brokered message read
      back, through the consume side's conversion, as the context's own
      identifiers, whenever Guid parsing inverts the formatter and the
      formatter never writes a blank string. */
  lemma NativeIdsReadBack(ctx: SendContext, format: Guid -> string, tryParseGuid: string -> Option<Guid>)
    requires forall g: Guid :: tryParseGuid(format(g)) == Some(g) && !IsNullOrWhiteSpace(Some(format(g)))
    ensures ConvertIdToGuid(NativeFields(ctx, format).messageId, tryParseGuid) == Success(ctx.messageId)
    ensures ConvertIdToGuid(NativeFields(ctx, format).correlationId, tryParseGuid) == Success(ctx.correlationId)
  {
    if ctx.messageId.Some? {
      ConvertIdToGuidInvertsFormat(ctx.messageId.value, format, tryParseGuid);
    }
    if ctx.correlationId.Some? {
      ConvertIdToGuidInvertsFormat(ctx.correlationId.value, format, tryParseGuid);
    }
  }

  /** The MessageSender: the native messages handed to it, in order. */
  class MessageSender {
    var handed: seq<NativeMessage>

    constructor ()
      ensures handed == []
    {
      handed := [];
    }

    method SendAsync(m: NativeMessage, failure: Option<Exception>) returns (error: Option<Exception>)
      modifies this
      ensures handed == old(handed) + [m] && error == failure
    {
      handed := handed + [m];
      error := failure;
    }
  }

  /** A BrokeredMessage whose header fields the transport assigns one by one. */
  class BrokeredMessage {
    var contentType: Option<string>
    var forcePersistence: bool
    var timeToLive: Option<TimeSpan>
    var messageId: Option<string>
    var correlationId: Option<string>

    constructor ()
      ensures contentType.None? && !forcePersistence && timeToLive.None? && messageId.None? && correlationId.None?
    {
      contentType, forcePersistence, timeToLive, messageId, correlationId := None, false, None, None, None;
    }

    function Fields(): NativeMessage
      reads this
    {
      NativeMessage(contentType, forcePersistence, timeToLive, messageId, correlationId)
    }
  }

  class AzureServiceBusSendTransport {
    /** The observer registry (_observers), in connection order. */
    var observers: seq<Observer>
    const sender: MessageSender

    constructor (sender: MessageSender)
      ensures observers == [] && this.sender == sender
    {
      observers := [];
      this.sender := sender;
    }

    /** ISendTransport.Send: the trace of steps and the error raised are
        those of RunSend, and the sender receives the copied message exactly
        when the send got as far as the physical send. */
    method Send(ctx0: SendContext, o: Oracles, format: Guid -> string) returns (trace: seq<Event>, error: Option<Exception>)
      modifies sender
      ensures trace == RunSend(ctx0, o, format).trace && error == RunSend(ctx0, o, format).error
      ensures var h := RunSend(ctx0, o, format).handed;
        sender.handed == old(sender.handed) + if h.Some? then [h.value] else []
    {
      trace := [Pipe];
      var piped := o.pipe(ctx0);
      if piped.Failure? {
        trace, error := Catch(trace, piped.error, o);
        return;
      }
      var ctx := piped.value;
      if o.body.Some? {
        trace, error := Catch(trace, o.body.value, o);
        return;
      }
      var brokered := new BrokeredMessage();
      brokered.contentType := Some(ctx.contentType);
      brokered.forcePersistence := ctx.durable;
      if ctx.timeToLive.Some? {
        brokered.timeToLive := ctx.timeToLive;
      }
      if ctx.messageId.Some? {
        brokered.messageId := Some(format(ctx.messageId.value));
      }
      if ctx.correlationId.Some? {
        brokered.correlationId := Some(format(ctx.correlationId.value));
      }
      assert brokered.Fields() == NativeFields(ctx, format);
      trace := trace + [PreSend];
      if o.preSend.Some? {
        trace, error := Catch(trace, o.preSend.value, o);
        return;
      }
      trace := trace + [PhysicalSend];
      var sent := sender.SendAsync(brokered.Fields(), o.physicalSend);
      if sent.Some? {
        trace, error := Catch(trace, sent.value, o);
        return;
      }
      trace := trace + [PostSend];
      if o.postSend.Some? {
        trace, error := Catch(trace, o.postSend.value, o);
        return;
      }
      error := None;
    }

    /** The catch block of Send: the method counterpart of the function Fail,
        giving Fail's trace and error; the handed message, which Fail also
        carries, is what Send's sender records. */
    static method Catch(done: seq<Event>, caught: Exception, o: Oracles) returns (trace: seq<Event>, error: Option<Exception>)
      ensures trace == done + [SendFault]
      ensures o.sendFault.None? ==> error == Some(caught)
      ensures o.sendFault.Some? ==> error == Some(AggregateException([o.sendFault.value]))
    {
      trace := done + [SendFault];
      if o.sendFault.Some? {
        error := Some(AggregateException([o.sendFault.value]));
      } else {
        error := Some(caught);
      }
    }

    /** Move: redelivery is not implemented by this transport; it fails
        whatever it is asked to move. */
    method Move(context: ReceiveContext) returns (error: Option<Exception>)
      ensures error == Some(NotImplementedException)
    {
      error := Some(NotImplementedException);
    }

    /** Connect: adds the observer to the registry and nothing else. */
    method Connect(observer: Observer) returns (handle: ConnectHandle)
      modifies this`observers
      ensures observers == old(observers) + [observer]
      ensures handle == ConnectHandle(observer)
    {
      observers := observers + [observer];
      handle := ConnectHandle(observer);
    }
  }
}
