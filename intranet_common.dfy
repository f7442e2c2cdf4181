/**
 * Shared messages and the two server-side actors of the intranet calculator
 * demo (examples/intranet_common.rs): the calculator, whose four request
 * handlers count requests and answer with (result, expression text, server
 * name), and the notification service, whose subscribe handler keeps a table
 * of subscribed clients keyed by peer id.
 *
 * Floating point stays abstract: `FloatOps` carries the `f64` operations the
 * handlers use and the `{}` rendering of an operand, as parameters.
 */
module IntranetCommon {
  import opened Wrappers
  import Decimal
  import Text

  /** A libp2p peer id, represented by its base58 text (what `{}` prints). */
  datatype PeerId = PeerId(base58: string)

  /** The `f64` operations the handlers rely on. */
  datatype FloatOps<!F> = FloatOps(
    add: (F, F) -> F,
    sub: (F, F) -> F,
    mul: (F, F) -> F,
    div: (F, F) -> F,
    isZero: F -> bool,      // `x == 0.0` (true of both signed zeros)
    isInfinite: F -> bool,  // `x.is_infinite()`
    isNan: F -> bool,       // `x.is_nan()`
    show: F -> string)      // `format!("{}", x)`

  predicate IsFinite<F>(ops: FloatOps<F>, x: F) {
    !ops.isInfinite(x) && !ops.isNan(x)
  }

  // ---------------------------------------------------------------------------
  // Calculator service
  // ---------------------------------------------------------------------------

  datatype Operation = Add | Subtract | Multiply | Divide

  /**
   * `AddRequest`, `SubtractRequest`, `MultiplyRequest` and `DivideRequest`
   * have the same four fields; the handler that receives one fixes its kind.
   */
  datatype Request<F> = Request(a: F, b: F, fromPeer: PeerId, fromName: string)

  /** `CalcResponse = (f64, String, String)`: result, expression, server name. */
  datatype CalcResponse<F> = CalcResponse(result: F, operation: string, serverName: string)

  function Symbol(op: Operation): string {
    match op
    case Add => "+"
    case Subtract => "-"
    case Multiply => "×"
    case Divide => "÷"
  }

  /** The expression text of a reply: `"{a} + {b}"`, `"{a} - {b}"`, `"{a} × {b}"`, `"{a} ÷ {b}"`. */
  function ExpressionText<F>(ops: FloatOps<F>, op: Operation, a: F, b: F): (text: string)
    ensures |text| == |ops.show(a)| + 3 + |ops.show(b)|
    ensures text[..|ops.show(a)|] == ops.show(a) && text[|text| - |ops.show(b)|..] == ops.show(b)
    ensures text[|ops.show(a)|] == ' ' && text[|ops.show(a)| + 1] == Symbol(op)[0] && text[|ops.show(a)| + 2] == ' '
  {
    ops.show(a) + " " + Symbol(op) + " " + ops.show(b)
  }

  /**
   * The expression text lets a reader recover the operator and both operand
   * texts, as long as the rendering of a number holds no space (Rust's `{}`
   * for `f64` writes digits, '.', '-', "inf" or "NaN").
   */
  lemma ExpressionTextDetermines<F>(ops: FloatOps<F>, op1: Operation, a1: F, b1: F,
                                    op2: Operation, a2: F, b2: F)
    requires Text.Lacks(ops.show(a1), ' ') && Text.Lacks(ops.show(a2), ' ')
    requires ExpressionText(ops, op1, a1, b1) == ExpressionText(ops, op2, a2, b2)
    ensures op1 == op2 && ops.show(a1) == ops.show(a2) && ops.show(b1) == ops.show(b2)
  {
    var tail1 := Symbol(op1) + " " + ops.show(b1);
    var tail2 := Symbol(op2) + " " + ops.show(b2);
    assert ExpressionText(ops, op1, a1, b1) == ops.show(a1) + [' '] + tail1;
    assert ExpressionText(ops, op2, a2, b2) == ops.show(a2) + [' '] + tail2;
    Text.SplitAtFirst(ops.show(a1), tail1, ops.show(a2), tail2, ' ');
    assert tail1 == [Symbol(op1)[0]] + [' '] + ops.show(b1);
    assert tail2 == [Symbol(op2)[0]] + [' '] + ops.show(b2);
    Text.SplitAtFirst([Symbol(op1)[0]], ops.show(b1), [Symbol(op2)[0]], ops.show(b2), ' ');
  }

  /** Why a divide request gets no value: the guards in the order the handler tests them. */
  datatype DivideVerdict<F> = DivisorZero | InvalidResult(quotient: F) | Quotient(quotient: F)

  /**
   * The divide handler's guards: the zero test comes first, so the quotient
   * is not consulted for a zero divisor; a non-zero divisor whose quotient is
   * infinite or NaN is an invalid result.
   */
  function DivideCheck<F>(ops: FloatOps<F>, a: F, b: F): (v: DivideVerdict<F>)
    ensures v.DivisorZero? <==> ops.isZero(b)
    ensures v.InvalidResult? <==> !ops.isZero(b) && !IsFinite(ops, ops.div(a, b))
    ensures v.Quotient? <==> !ops.isZero(b) && IsFinite(ops, ops.div(a, b))
    ensures !v.DivisorZero? ==> v.quotient == ops.div(a, b)
  {
    if ops.isZero(b) then DivisorZero
    else
      var q := ops.div(a, b);
      if ops.isInfinite(q) || ops.isNan(q) then InvalidResult(q) else Quotient(q)
  }

  /** The reply of the divide handler. */
  function DivideReply<F>(ops: FloatOps<F>, serverName: string, msg: Request<F>): (r: Option<CalcResponse<F>>)
    ensures ops.isZero(msg.b) ==> r == None
    ensures r.None? <==> ops.isZero(msg.b) || !IsFinite(ops, ops.div(msg.a, msg.b))
    ensures r.Some? ==> r.value.result == ops.div(msg.a, msg.b) && IsFinite(ops, r.value.result)
    ensures r.Some? ==> r.value.operation == ExpressionText(ops, Divide, msg.a, msg.b)
    ensures r.Some? ==> r.value.serverName == serverName
  {
    match DivideCheck(ops, msg.a, msg.b)
    case Quotient(q) => Some(CalcResponse(q, ExpressionText(ops, Divide, msg.a, msg.b), serverName))
    case _ => None
  }

  /** `CalculatorActor`: a server name and a count of the requests it has handled. */
  class CalculatorActor {
    const serverName: string
    var requestCount: nat
    /** The kinds of the requests handled so far, oldest first. */
    ghost var handled: seq<Operation>

    ghost predicate Valid()
      reads this
    {
      requestCount == |handled|
    }

    /** `CalculatorActor::new`. */
    constructor (serverName: string)
      ensures Valid()
      ensures this.serverName == serverName && requestCount == 0 && handled == []
    {
      this.serverName := serverName;
      requestCount := 0;
      handled := [];
    }

    method HandleAdd<F>(ops: FloatOps<F>, msg: Request<F>) returns (reply: CalcResponse<F>)
      requires Valid()
      modifies this
      ensures Valid() && handled == old(handled) + [Add]
      ensures requestCount == old(requestCount) + 1
      ensures reply.result == ops.add(msg.a, msg.b)
      ensures reply.operation == ExpressionText(ops, Add, msg.a, msg.b)
      ensures reply.serverName == serverName
    {
      requestCount := requestCount + 1;
      handled := handled + [Add];
      var result := ops.add(msg.a, msg.b);
      reply := CalcResponse(result, ops.show(msg.a) + " + " + ops.show(msg.b), serverName);
    }

    method HandleSubtract<F>(ops: FloatOps<F>, msg: Request<F>) returns (reply: CalcResponse<F>)
      requires Valid()
      modifies this
      ensures Valid() && handled == old(handled) + [Subtract]
      ensures requestCount == old(requestCount) + 1
      ensures reply.result == ops.sub(msg.a, msg.b)
      ensures reply.operation == ExpressionText(ops, Subtract, msg.a, msg.b)
      ensures reply.serverName == serverName
    {
      requestCount := requestCount + 1;
      handled := handled + [Subtract];
      var result := ops.sub(msg.a, msg.b);
      reply := CalcResponse(result, ops.show(msg.a) + " - " + ops.show(msg.b), serverName);
    }

    method HandleMultiply<F>(ops: FloatOps<F>, msg: Request<F>) returns (reply: CalcResponse<F>)
      requires Valid()
      modifies this
      ensures Valid() && handled == old(handled) + [Multiply]
      ensures requestCount == old(requestCount) + 1
      ensures reply.result == ops.mul(msg.a, msg.b)
      ensures reply.operation == ExpressionText(ops, Multiply, msg.a, msg.b)
      ensures reply.serverName == serverName
    {
      requestCount := requestCount + 1;
      handled := handled + [Multiply];
      var result := ops.mul(msg.a, msg.b);
      reply := CalcResponse(result, ops.show(msg.a) + " × " + ops.show(msg.b), serverName);
    }

    /** Counts the request before either guard, so both early returns count too. */
    method HandleDivide<F>(ops: FloatOps<F>, msg: Request<F>) returns (reply: Option<CalcResponse<F>>)
      requires Valid()
      modifies this
      ensures Valid() && handled == old(handled) + [Divide]
      ensures requestCount == old(requestCount) + 1
      ensures reply == DivideReply(ops, serverName, msg)
    {
      requestCount := requestCount + 1;
      handled := handled + [Divide];
      if ops.isZero(msg.b) {
        return None;
      }
      var result := ops.div(msg.a, msg.b);
      if ops.isInfinite(result) || ops.isNan(result) {
        return None;
      }
      reply := Some(CalcResponse(result, ops.show(msg.a) + " ÷ " + ops.show(msg.b), serverName));
      assert reply.value.operation == ExpressionText(ops, Divide, msg.a, msg.b);
    }
  }

  // ---------------------------------------------------------------------------
  // Push notifications
  // ---------------------------------------------------------------------------

  datatype StreamType = ServerMetrics | CalculationHistory | SystemEvents

  datatype Severity = Info | Warning | Error

  /** `ServerStatusUpdate`; `R` stands for `f32`. */
  datatype ServerStatusUpdate<R> = ServerStatusUpdate(
    timestamp: nat, cpuUsage: R, memoryUsage: R, activeConnections: nat, uptimeSeconds: nat)

  datatype TaskCompletionNotice = TaskCompletionNotice(
    taskId: string, taskType: string, result: string, durationMs: nat, timestamp: nat)

  datatype StreamDataItem = StreamDataItem(
    timestamp: nat, streamType: StreamType, data: string, sequence: nat)

  datatype EventBroadcast = EventBroadcast(
    eventType: string, message: string, severity: Severity, timestamp: nat)

  // ---------------------------------------------------------------------------
  // Notification service
  // ---------------------------------------------------------------------------

  datatype SubscribeDataStream = SubscribeDataStream(
    clientPeer: PeerId, clientName: string, streamType: StreamType)

  /**
   * A row of the subscription table (`connected_at` is not modelled). The
   * handler always stores the placeholder `ActorId::new(0)`, so the row keeps
   * only that sequence number; which peer kameo attaches to such an id is
   * library code and is not modelled.
   */
  datatype ClientInfo = ClientInfo(
    peerId: PeerId, name: string, actorId: nat, subscribedStreams: seq<StreamType>)

  /** The row the subscribe handler stores for a request; the actor id is the placeholder 0. */
  function ClientRow(msg: SubscribeDataStream): (row: ClientInfo)
    ensures row.peerId == msg.clientPeer && row.name == msg.clientName
    ensures row.subscribedStreams == [msg.streamType]
    ensures row.actorId == 0
  {
    ClientInfo(msg.clientPeer, msg.clientName, 0, [msg.streamType])
  }

  /** `format!("sub-{}-{}", client_peer, event_count)`. */
  function SubscriptionId(peer: PeerId, count: nat): (id: string)
    ensures |id| == 5 + |peer.base58| + |Decimal.DecimalDigits(count)|
    ensures id[..4] == "sub-" && id[4..4 + |peer.base58|] == peer.base58 && id[4 + |peer.base58|] == '-'
    ensures Decimal.ParseDecimal(id[5 + |peer.base58|..]) == Some(count)
  {
    Decimal.DecimalRoundTrip(count);
    var id := "sub-" + peer.base58 + "-" + Decimal.DecimalDigits(count);
    assert id[5 + |peer.base58|..] == Decimal.DecimalDigits(count);
    id
  }

  /**
   * A subscription id names the peer and the counter value it was built
   * from: the text after the last '-' is the counter's digits.
   */
  lemma SubscriptionIdInjective(p1: PeerId, n1: nat, p2: PeerId, n2: nat)
    requires SubscriptionId(p1, n1) == SubscriptionId(p2, n2)
    ensures p1 == p2 && n1 == n2
  {
    var d1, d2 := Decimal.DecimalDigits(n1), Decimal.DecimalDigits(n2);
    assert SubscriptionId(p1, n1) == ("sub-" + p1.base58) + ['-'] + d1;
    assert SubscriptionId(p2, n2) == ("sub-" + p2.base58) + ['-'] + d2;
    Text.SplitAtLast("sub-" + p1.base58, d1, "sub-" + p2.base58, d2, '-');
    assert p1.base58 == ("sub-" + p1.base58)[4..];
    assert p2.base58 == ("sub-" + p2.base58)[4..];
    Decimal.DecimalInjective(n1, n2);
  }

  /** Ids built from different counter values differ, whichever peers asked. */
  lemma SubscriptionIdsDiffer(p1: PeerId, n1: nat, p2: PeerId, n2: nat)
    requires n1 != n2
    ensures SubscriptionId(p1, n1) != SubscriptionId(p2, n2)
  {
    if SubscriptionId(p1, n1) == SubscriptionId(p2, n2) {
      SubscriptionIdInjective(p1, n1, p2, n2);
    }
  }

  /** The latest subscribe request sent by peer `p`, if any. */
  function LatestFrom(reqs: seq<SubscribeDataStream>, p: PeerId): (r: Option<SubscribeDataStream>)
    ensures r.Some? ==> r.value.clientPeer == p
    ensures r.None? <==> forall i :: 0 <= i < |reqs| ==> reqs[i].clientPeer != p
  {
    if reqs == [] then None
    else if reqs[|reqs| - 1].clientPeer == p then Some(reqs[|reqs| - 1])
    else LatestFrom(reqs[..|reqs| - 1], p)
  }

  lemma LatestFromAppend(reqs: seq<SubscribeDataStream>, m: SubscribeDataStream, p: PeerId)
    ensures LatestFrom(reqs + [m], p) == if m.clientPeer == p then Some(m) else LatestFrom(reqs, p)
  {
    assert (reqs + [m])[..|reqs|] == reqs;
  }

  /**
   * `NotificationActor`: a table of subscribed clients keyed by peer id and
   * an event counter that numbers subscription ids.
   */
  class NotificationActor {
    const serverName: string
    var connectedClients: map<PeerId, ClientInfo>
    var eventCount: nat
    /** Every subscribe request handled so far, oldest first. */
    ghost var requests: seq<SubscribeDataStream>
    /** Every subscription id handed out so far, oldest first. */
    ghost var issued: seq<string>

    /**
     * The counter counts the subscribe requests, and the table holds one row
     * per peer that ever subscribed, built from that peer's latest request:
     * re-subscribing overwrites, and no row is ever removed. The i-th id
     * handed out was built from the i-th request's peer and the counter i.
     */
    ghost predicate Valid()
      reads this
    {
      && eventCount == |requests|
      && |issued| == |requests|
      && (forall i :: 0 <= i < |issued| ==> issued[i] == SubscriptionId(requests[i].clientPeer, i))
      && (forall p :: p in connectedClients <==> LatestFrom(requests, p).Some?)
      && (forall p :: p in connectedClients ==> connectedClients[p] == ClientRow(LatestFrom(requests, p).value))
    }

    /** `NotificationActor::new` (the start time is not modelled). */
    constructor (serverName: string)
      ensures Valid()
      ensures this.serverName == serverName && connectedClients == map[] && eventCount == 0
      ensures requests == [] && issued == []
    {
      this.serverName := serverName;
      connectedClients := map[];
      eventCount := 0;
      requests := [];
      issued := [];
    }

    /** The handler of `SubscribeDataStream`; returns the subscription id. */
    method HandleSubscribe(msg: SubscribeDataStream) returns (subscriptionId: string)
      requires Valid()
      modifies this
      ensures Valid() && requests == old(requests) + [msg] && issued == old(issued) + [subscriptionId]
      ensures subscriptionId == SubscriptionId(msg.clientPeer, old(eventCount))
      ensures eventCount == old(eventCount) + 1
      ensures connectedClients == old(connectedClients)[msg.clientPeer := ClientRow(msg)]
      ensures msg.clientPeer in old(connectedClients) ==> |connectedClients| == |old(connectedClients)|
      ensures msg.clientPeer !in old(connectedClients) ==> |connectedClients| == |old(connectedClients)| + 1
      ensures forall p :: p != msg.clientPeer ==>
        (p in connectedClients <==> p in old(connectedClients)) &&
        (p in connectedClients ==> connectedClients[p] == old(connectedClients)[p])
    {
      subscriptionId := SubscriptionId(msg.clientPeer, eventCount);
      eventCount := eventCount + 1;
      var clientInfo := ClientInfo(msg.clientPeer, msg.clientName, 0, [msg.streamType]);
      connectedClients := connectedClients[msg.clientPeer := clientInfo];
      ghost var before, issuedBefore := requests, issued;
      requests := requests + [msg];
      issued := issued + [subscriptionId];
      forall i | 0 <= i < |issued|
        ensures issued[i] == SubscriptionId(requests[i].clientPeer, i)
      {
        if i < |before| {
          assert issued[i] == issuedBefore[i] && requests[i] == before[i];
        }
      }
      forall p
        ensures p in connectedClients <==> LatestFrom(requests, p).Some?
        ensures p in connectedClients ==> connectedClients[p] == ClientRow(LatestFrom(requests, p).value)
      {
        LatestFromAppend(before, msg, p);
      }
    }
  }

  /** No subscription id is handed out twice, whichever peers ask. */
  lemma IssuedIdsDistinct(actor: NotificationActor, i: int, j: int)
    requires actor.Valid() && 0 <= i < j < |actor.issued|
    ensures actor.issued[i] != actor.issued[j]
  {
    SubscriptionIdsDiffer(actor.requests[i].clientPeer, i, actor.requests[j].clientPeer, j);
  }

  /**
   * Two subscribe requests from one peer: the ids differ, the table grows by
   * at most one row, and the peer's row holds only the second stream type.
   */
  method ResubscribeFromSamePeer(actor: NotificationActor, first: SubscribeDataStream, second: SubscribeDataStream)
    returns (id1: string, id2: string)
    requires actor.Valid() && first.clientPeer == second.clientPeer
    modifies actor
    ensures actor.Valid()
    ensures id1 != id2
    ensures first.clientPeer in old(actor.connectedClients) ==> |actor.connectedClients| == |old(actor.connectedClients)|
    ensures first.clientPeer !in old(actor.connectedClients) ==> |actor.connectedClients| == |old(actor.connectedClients)| + 1
    ensures second.clientPeer in actor.connectedClients
    ensures actor.connectedClients[second.clientPeer].subscribedStreams == [second.streamType]
  {
    id1 := actor.HandleSubscribe(first);
    id2 := actor.HandleSubscribe(second);
    SubscriptionIdsDiffer(first.clientPeer, actor.eventCount - 2, second.clientPeer, actor.eventCount - 1);
  }
}
