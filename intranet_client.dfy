/**
 * The client side of the intranet calculator demo
 * (examples/intranet_client.rs): choosing a calculator provider other than
 * oneself from a registry lookup, one round of the demo calculations, the
 * outcome of each call as the client reports it, setting up the push
 * subscription, and the handler that counts pushed notifications.
 *
 * The registry (`lookup`, `lookup_all`, `register`) and `ask` live in the
 * remote-actor library; their results are inputs here.
 */
module IntranetClient {
  import opened Wrappers
  import opened IntranetCommon

  /** An actor id: a sequence number and, for an actor on some peer, that peer. */
  datatype ActorId = ActorId(sequence: nat, peer: Option<PeerId>)

  datatype RemoteActorRef = RemoteActorRef(id: ActorId)

  /** An error raised by the registry or by a remote call. */
  datatype RemoteError = RemoteError(message: string)

  // ---------------------------------------------------------------------------
  // Provider selection
  // ---------------------------------------------------------------------------

  /** `calculator.id().peer_id() == Some(&local_peer_id)`: an actor id without a peer is not local. */
  predicate IsLocal(localPeerId: PeerId, r: RemoteActorRef)
    ensures IsLocal(localPeerId, r) ==> r.id.peer.Some? && r.id.peer.value == localPeerId
  {
    r.id.peer == Some(localPeerId)
  }

  /** The first `k` items of the lookup stream are all providers on the local peer. */
  predicate SkippedBefore(localPeerId: PeerId, items: seq<Result<RemoteActorRef, RemoteError>>, k: int) {
    0 <= k <= |items| && forall j :: 0 <= j < k ==> items[j].Ok? && IsLocal(localPeerId, items[j].value)
  }

  /** Item `k` is the first provider that is not on the local peer. */
  predicate SelectedAt(localPeerId: PeerId, items: seq<Result<RemoteActorRef, RemoteError>>, k: int) {
    0 <= k < |items| && SkippedBefore(localPeerId, items, k) && items[k].Ok? && !IsLocal(localPeerId, items[k].value)
  }

  /** The stream fails at item `k` before any non-local provider turned up. */
  predicate FailedAt(localPeerId: PeerId, items: seq<Result<RemoteActorRef, RemoteError>>, k: int) {
    0 <= k < |items| && SkippedBefore(localPeerId, items, k) && items[k].Err?
  }

  lemma SelectedAtUnique(localPeerId: PeerId, items: seq<Result<RemoteActorRef, RemoteError>>, j: int, k: int)
    requires SelectedAt(localPeerId, items, j) && SelectedAt(localPeerId, items, k)
    ensures j == k
  {
  }

  /**
   * `find_calculator_service`: drains the `lookup_all("calculator")` stream,
   * given as the items it yields (its end is the end of the sequence), and
   * returns the first provider not on the local peer. It gives up with
   * `None` when the stream ends or fails first.
   */
  method FindCalculatorService(localPeerId: PeerId, lookupAll: seq<Result<RemoteActorRef, RemoteError>>)
    returns (found: Option<RemoteActorRef>)
    ensures found.Some? <==> exists k :: SelectedAt(localPeerId, lookupAll, k)
    ensures found.Some? ==> exists k :: SelectedAt(localPeerId, lookupAll, k) && lookupAll[k].value == found.value
    ensures found.None? ==>
      SkippedBefore(localPeerId, lookupAll, |lookupAll|) || exists k :: FailedAt(localPeerId, lookupAll, k)
  {
    var i := 0;
    while i < |lookupAll| && lookupAll[i].Ok?
      invariant i <= |lookupAll|
      invariant SkippedBefore(localPeerId, lookupAll, i)
    {
      var calculator := lookupAll[i].value;
      if calculator.id.peer == Some(localPeerId) {
        i := i + 1;
        continue;
      }
      assert SelectedAt(localPeerId, lookupAll, i);
      return Some(calculator);
    }
    if i < |lookupAll| {
      assert FailedAt(localPeerId, lookupAll, i);
    }
    found := None;
  }

  // ---------------------------------------------------------------------------
  // Demo mode
  // ---------------------------------------------------------------------------

  /** The operation names of the demo: 加法, 减法, 乘法, 除法. */
  function OperationName(op: Operation): string {
    match op
    case Add => "加法"
    case Subtract => "减法"
    case Multiply => "乘法"
    case Divide => "除法"
  }

  /** The dispatch `match op_name` of the demo loop; any other name does nothing. */
  function Dispatch(opName: string): (op: Option<Operation>)
    ensures op.Some? ==> OperationName(op.value) == opName
    ensures op.None? <==> forall o: Operation :: OperationName(o) != opName
  {
    if opName == "加法" then Some(Add)
    else if opName == "减法" then Some(Subtract)
    else if opName == "乘法" then Some(Multiply)
    else if opName == "除法" then Some(Divide)
    else None
  }

  lemma DispatchRoundTrip(op: Operation)
    ensures Dispatch(OperationName(op)) == Some(op)
  {
  }

  /**
   * The fixed list of demo calculations (name, a, b); the numbers are the
   * decimal literals of the source, which the compiler turns into `f64`.
   */
  const DemoCalculations: seq<(string, real, real)> := [
    ("加法", 15.0, 25.0),
    ("减法", 100.0, 35.0),
    ("乘法", 12.5, 8.0),
    ("除法", 144.0, 12.0),
    ("除法", 100.0, 0.0)
  ]

  /** One request the demo sends: to which provider, which handler, what message. */
  datatype CalcCall<F> = CalcCall(target: RemoteActorRef, op: Operation, request: Request<F>)

  /** The calls one pass over `calcs` sends to `target`, in order. */
  function PlannedCalls<F>(literal: real -> F, target: RemoteActorRef, calcs: seq<(string, real, real)>,
                           clientName: string, localPeerId: PeerId): (calls: seq<CalcCall<F>>)
    ensures |calls| <= |calcs|
    ensures forall i :: 0 <= i < |calls| ==>
      calls[i].target == target && calls[i].request.fromPeer == localPeerId && calls[i].request.fromName == clientName
    ensures (forall i :: 0 <= i < |calcs| ==> Dispatch(calcs[i].0).Some?) ==>
      && |calls| == |calcs|
      && forall i :: 0 <= i < |calcs| ==>
           calls[i] == CalcCall(target, Dispatch(calcs[i].0).value,
                                Request(literal(calcs[i].1), literal(calcs[i].2), localPeerId, clientName))
  {
    if calcs == [] then []
    else
      var init := calcs[..|calcs| - 1];
      var (opName, a, b) := calcs[|calcs| - 1];
      var before := PlannedCalls(literal, target, init, clientName, localPeerId);
      match Dispatch(opName)
      case Some(op) => before + [CalcCall(target, op, Request(literal(a), literal(b), localPeerId, clientName))]
      case None => before
  }

  /**
   * One round of `run_demo_mode`: look the calculator up, skip the round if
   * there is none, otherwise send the demo calculations to it in order.
   */
  method RunDemoRound<F>(literal: real -> F, localPeerId: PeerId, clientName: string,
                         lookupAll: seq<Result<RemoteActorRef, RemoteError>>)
    returns (sent: seq<CalcCall<F>>)
    ensures (forall k :: !SelectedAt(localPeerId, lookupAll, k)) ==> sent == []
    ensures forall k :: SelectedAt(localPeerId, lookupAll, k) ==>
      sent == PlannedCalls(literal, lookupAll[k].value, DemoCalculations, clientName, localPeerId)
  {
    var calculator := FindCalculatorService(localPeerId, lookupAll);
    if calculator.None? {
      return [];
    }
    ghost var k :| SelectedAt(localPeerId, lookupAll, k) && lookupAll[k].value == calculator.value;
    forall j | SelectedAt(localPeerId, lookupAll, j) ensures j == k {
      SelectedAtUnique(localPeerId, lookupAll, j, k);
    }
    sent := [];
    for i := 0 to |DemoCalculations|
      invariant sent == PlannedCalls(literal, calculator.value, DemoCalculations[..i], clientName, localPeerId)
    {
      var (opName, a, b) := DemoCalculations[i];
      assert DemoCalculations[..i + 1][..i] == DemoCalculations[..i];
      match Dispatch(opName) {
        case Some(op) =>
          sent := sent + [CalcCall(calculator.value, op, Request(literal(a), literal(b), localPeerId, clientName))];
        case None =>
      }
    }
    assert DemoCalculations[..|DemoCalculations|] == DemoCalculations;
  }

  /**
   * Each round sends five requests: add 15 and 25, subtract 35 from 100,
   * multiply 12.5 by 8, divide 144 by 12, and divide 100 by 0.
   */
  lemma DemoRoundCalls<F>(literal: real -> F, target: RemoteActorRef, clientName: string, localPeerId: PeerId)
    ensures PlannedCalls(literal, target, DemoCalculations, clientName, localPeerId) == [
      CalcCall(target, Add, Request(literal(15.0), literal(25.0), localPeerId, clientName)),
      CalcCall(target, Subtract, Request(literal(100.0), literal(35.0), localPeerId, clientName)),
      CalcCall(target, Multiply, Request(literal(12.5), literal(8.0), localPeerId, clientName)),
      CalcCall(target, Divide, Request(literal(144.0), literal(12.0), localPeerId, clientName)),
      CalcCall(target, Divide, Request(literal(100.0), literal(0.0), localPeerId, clientName))]
  {
    var d := DemoCalculations;
    assert Dispatch(d[0].0) == Some(Add) && Dispatch(d[1].0) == Some(Subtract) && Dispatch(d[2].0) == Some(Multiply);
    assert Dispatch(d[3].0) == Some(Divide) && Dispatch(d[4].0) == Some(Divide);
    assert forall i :: 0 <= i < |d| ==> Dispatch(d[i].0).Some?;
  }

  /** The last demo call, divide 100 by 0, gets no value from the server. */
  lemma DemoDivideByZeroHasNoResult<F>(ops: FloatOps<F>, literal: real -> F, serverName: string,
                                       target: RemoteActorRef, clientName: string, localPeerId: PeerId)
    requires ops.isZero(literal(0.0))
    ensures var calls := PlannedCalls(literal, target, DemoCalculations, clientName, localPeerId);
      |calls| == 5 && calls[4].op == Divide && DivideReply(ops, serverName, calls[4].request) == None
  {
    DemoRoundCalls(literal, target, clientName, localPeerId);
  }

  // ---------------------------------------------------------------------------
  // Reporting call outcomes
  // ---------------------------------------------------------------------------

  /** How the client reports one call. */
  datatype CallReport<F> =
    | Answered(value: F, operation: string, serverName: string)  // info: the result line
    | NoResult                                                   // warn: divisor zero or invalid result
    | CallFailed(error: RemoteError)                             // error: the call itself failed

  datatype LogLevel = InfoLevel | WarnLevel | ErrorLevel

  /** The log level of a report line: info for a value, warn for no value, error for a failed call. */
  function ReportLevel<F>(r: CallReport<F>): LogLevel {
    match r
    case Answered(_, _, _) => InfoLevel
    case NoResult => WarnLevel
    case CallFailed(_) => ErrorLevel
  }

  /** The outcome split of `execute_add`, `execute_subtract` and `execute_multiply`. */
  function ReportArithmetic<F>(reply: Result<CalcResponse<F>, RemoteError>): (r: CallReport<F>)
    ensures !r.NoResult?
    ensures r.Answered? <==> reply.Ok?
    ensures r.Answered? ==> reply.value == CalcResponse(r.value, r.operation, r.serverName)
    ensures r.CallFailed? ==> r.error == reply.error
    ensures ReportLevel(r) == InfoLevel <==> reply.Ok?
    ensures ReportLevel(r) == ErrorLevel <==> reply.Err?
  {
    match reply
    case Ok(CalcResponse(value, operation, serverName)) => Answered(value, operation, serverName)
    case Err(err) => CallFailed(err)
  }

  /** The three-way outcome split of `execute_divide`. */
  function ReportDivide<F>(reply: Result<Option<CalcResponse<F>>, RemoteError>): (r: CallReport<F>)
    ensures r.Answered? <==> reply.Ok? && reply.value.Some?
    ensures r.Answered? ==> reply.value.value == CalcResponse(r.value, r.operation, r.serverName)
    ensures r.NoResult? <==> reply == Ok(None)
    ensures r.CallFailed? <==> reply.Err?
    ensures r.CallFailed? ==> r.error == reply.error
    ensures ReportLevel(r) == InfoLevel <==> reply.Ok? && reply.value.Some?
    ensures ReportLevel(r) == WarnLevel <==> reply == Ok(None)
    ensures ReportLevel(r) == ErrorLevel <==> reply.Err?
  {
    match reply
    case Ok(Some(CalcResponse(value, operation, serverName))) => Answered(value, operation, serverName)
    case Ok(None) => NoResult
    case Err(err) => CallFailed(err)
  }

  /**
   * A divide call that reaches the server is reported at warn level exactly
   * when the divisor is zero or the quotient is not finite, and a reported
   * value is always the finite quotient.
   */
  lemma DeliveredDivideReport<F>(ops: FloatOps<F>, serverName: string, msg: Request<F>)
    ensures var r := ReportDivide(Ok(DivideReply(ops, serverName, msg)));
      && (r.NoResult? <==> ops.isZero(msg.b) || !IsFinite(ops, ops.div(msg.a, msg.b)))
      && (ReportLevel(r) == WarnLevel <==> ops.isZero(msg.b) || !IsFinite(ops, ops.div(msg.a, msg.b)))
      && (r.Answered? ==> r.value == ops.div(msg.a, msg.b) && IsFinite(ops, r.value))
      && !r.CallFailed?
  {
  }

  // ---------------------------------------------------------------------------
  // Push notifications on the client
  // ---------------------------------------------------------------------------

  datatype NotificationKind = StatusUpdateKind | TaskCompletionKind | EventBroadcastKind | StreamDataKind

  function SeverityIcon(s: Severity): string {
    match s
    case Info => "ℹ️ "
    case Warning => "⚠️ "
    case Error => "❌"
  }

  function SeverityText(s: Severity): string {
    match s
    case Info => "信息"
    case Warning => "警告"
    case Error => "错误"
  }

  function StreamIcon(t: StreamType): string {
    match t
    case ServerMetrics => "📊"
    case CalculationHistory => "🧮"
    case SystemEvents => "🔔"
  }

  /** Different severities are shown with different texts and icons. */
  lemma SeverityDisplayDistinct(s1: Severity, s2: Severity)
    requires s1 != s2
    ensures SeverityText(s1) != SeverityText(s2) && SeverityIcon(s1) != SeverityIcon(s2)
  {
  }

  /** Different stream types are shown with different icons. */
  lemma StreamIconDistinct(t1: StreamType, t2: StreamType)
    requires t1 != t2
    ensures StreamIcon(t1) != StreamIcon(t2)
  {
  }

  /** `ClientNotificationHandler`: counts every push it receives, of any kind. */
  class ClientNotificationHandler {
    const clientName: string
    var notificationCount: nat
    /** The kinds of the pushes received so far, oldest first. */
    ghost var received: seq<NotificationKind>

    ghost predicate Valid()
      reads this
    {
      notificationCount == |received|
    }

    /** `ClientNotificationHandler::new`. */
    constructor (clientName: string)
      ensures Valid()
      ensures this.clientName == clientName && notificationCount == 0 && received == []
    {
      this.clientName := clientName;
      notificationCount := 0;
      received := [];
    }

    method HandleServerStatusUpdate<R>(msg: ServerStatusUpdate<R>)
      requires Valid()
      modifies this
      ensures Valid() && received == old(received) + [StatusUpdateKind]
      ensures notificationCount == old(notificationCount) + 1
    {
      notificationCount := notificationCount + 1;
      received := received + [StatusUpdateKind];
    }

    method HandleTaskCompletionNotice(msg: TaskCompletionNotice)
      requires Valid()
      modifies this
      ensures Valid() && received == old(received) + [TaskCompletionKind]
      ensures notificationCount == old(notificationCount) + 1
    {
      notificationCount := notificationCount + 1;
      received := received + [TaskCompletionKind];
    }

    /** Returns the icon and the severity text the handler logs. */
    method HandleEventBroadcast(msg: EventBroadcast) returns (severityIcon: string, severityText: string)
      requires Valid()
      modifies this
      ensures Valid() && received == old(received) + [EventBroadcastKind]
      ensures notificationCount == old(notificationCount) + 1
      ensures severityIcon == SeverityIcon(msg.severity) && severityText == SeverityText(msg.severity)
    {
      notificationCount := notificationCount + 1;
      received := received + [EventBroadcastKind];
      severityIcon := SeverityIcon(msg.severity);
      severityText := SeverityText(msg.severity);
    }

    /** Returns the icon the handler logs for the item's stream. */
    method HandleStreamDataItem(msg: StreamDataItem) returns (streamIcon: string)
      requires Valid()
      modifies this
      ensures Valid() && received == old(received) + [StreamDataKind]
      ensures notificationCount == old(notificationCount) + 1
      ensures streamIcon == StreamIcon(msg.streamType)
    {
      notificationCount := notificationCount + 1;
      received := received + [StreamDataKind];
      streamIcon := StreamIcon(msg.streamType);
    }
  }

  // ---------------------------------------------------------------------------
  // Subscribing to the push services
  // ---------------------------------------------------------------------------

  /**
   * `subscribe_to_push_services`: creates the handler, registers it as
   * "client_handler", looks up "notification" and, if found, asks it to
   * subscribe this peer to the `ServerMetrics` stream. The registry and call
   * results are inputs: `register`, `lookup` and `ask` (used only when the
   * request is sent). `sent` is the subscribe request, if one went out.
   */
  method SubscribeToPushServices(clientName: string, localPeerId: PeerId,
                                 register: Result<(), RemoteError>,
                                 lookup: Result<Option<RemoteActorRef>, RemoteError>,
                                 ask: Result<string, RemoteError>)
    returns (result: Result<ClientNotificationHandler, RemoteError>, sent: Option<SubscribeDataStream>)
    ensures result.Ok? ==> fresh(result.value) && result.value.Valid()
    ensures result.Ok? ==> result.value.clientName == clientName && result.value.notificationCount == 0
    ensures register.Err? ==> result == Err(register.error) && sent == None
    ensures register.Ok? && lookup.Err? ==> result == Err(lookup.error) && sent == None
    ensures register.Ok? && lookup == Ok(None) ==> result.Ok? && sent == None
    ensures register.Ok? && lookup.Ok? && lookup.value.Some? ==>
      && sent == Some(SubscribeDataStream(localPeerId, clientName, ServerMetrics))
      && (result.Ok? <==> ask.Ok?)
      && (ask.Err? ==> result == Err(ask.error))
  {
    var handler := new ClientNotificationHandler(clientName);
    if register.Err? {
      return Err(register.error), None;
    }
    if lookup.Err? {
      return Err(lookup.error), None;
    }
    if lookup.value.None? {
      return Ok(handler), None;
    }
    sent := Some(SubscribeDataStream(localPeerId, clientName, ServerMetrics));
    if ask.Err? {
      return Err(ask.error), sent;
    }
    result := Ok(handler);
  }
}
