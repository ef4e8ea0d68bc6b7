/** `POST /api/payments`: a one-off charge with a stored billing key. The
    route checks the request, makes up a payment id, asks the gateway to
    charge, and relays the gateway's answer. It writes nothing to the
    database. */
module PaymentsRoute {
  import opened Common
  import opened PortOne

  const MissingFields := "필수 데이터가 누락되었습니다."
  const MissingSecret := "PortOne API Secret이 설정되지 않았습니다."
  const PaymentFailed := "결제 요청 실패"
  const IdPrefix := "payment_"
  const SuffixLength := 13

  /** The decoded request body; a missing `customer` reads as a missing id. */
  datatype CheckoutBody = CheckoutBody(
    billingKey: Option<string>,
    orderName: Option<string>,
    amount: Option<int>,
    customerId: Option<string>)

  /** `billingKey`, `orderName`, `amount` and `customer?.id` are all truthy;
      an amount of 0 counts as missing. */
  predicate HasRequiredFields(b: CheckoutBody)
  {
    Truthy(b.billingKey) && Truthy(b.orderName) && TruthyNumber(b.amount) && Truthy(b.customerId)
  }

  // ---------------------------------------------------------------------------
  // The payment id

  predicate IsBase36Digit(c: char)
  {
    '0' <= c <= '9' || 'a' <= c <= 'z'
  }

  /** `Math.random().toString(36).substring(2, 15)`: at most 13 base-36
      digits. */
  type RandomSuffix = s: string | |s| <= SuffixLength && forall i :: 0 <= i < |s| ==> IsBase36Digit(s[i])

  /** `payment_${Date.now()}_${suffix}` */
  function PaymentId(nowMs: nat, suffix: RandomSuffix): (id: string)
    ensures StartsWith(id, IdPrefix)
  {
    IdPrefix + NatToString(nowMs) + "_" + suffix
  }

  /** Reads a payment id back: the millisecond time between the prefix and
      the next '_', and the rest. */
  function ParsePaymentId(id: string): (r: Option<(nat, string)>)
    ensures r.Some? ==> StartsWith(id, IdPrefix)
  {
    if !StartsWith(id, IdPrefix) then None
    else
      var rest := id[|IdPrefix|..];
      match IndexOfFrom(rest, "_", 0)
      case None => None
      case Some(i) =>
        if i > 0 && AllDigits(rest[..i]) then Some((DigitsValue(rest[..i]), rest[i + 1..])) else None
  }

  lemma {:induction false} PaymentIdRoundTrip(nowMs: nat, suffix: RandomSuffix)
    ensures ParsePaymentId(PaymentId(nowMs, suffix)) == Some((nowMs, suffix))
  {
    var id := PaymentId(nowMs, suffix);
    var digits := NatToString(nowMs);
    var rest := id[|IdPrefix|..];
    assert rest == digits + "_" + suffix;
    assert OccursAt(rest, "_", |digits|);
    forall j | 0 <= j < |digits| ensures !OccursAt(rest, "_", j) {
      assert rest[j] == digits[j];
    }
    assert IndexOfFrom(rest, "_", 0) == Some(|digits|);
    assert rest[..|digits|] == digits;
    assert rest[|digits| + 1..] == suffix;
    NatToStringRoundTrip(nowMs);
  }

  /** Ids made at different milliseconds never collide. */
  lemma PaymentIdsDifferByTime(t1: nat, s1: RandomSuffix, t2: nat, s2: RandomSuffix)
    requires t1 != t2
    ensures PaymentId(t1, s1) != PaymentId(t2, s2)
  {
    PaymentIdRoundTrip(t1, s1);
    PaymentIdRoundTrip(t2, s2);
  }

  /** Characters `encodeURIComponent` leaves as they are. */
  predicate IsUriUnreserved(c: char)
  {
    || 'a' <= c <= 'z' || 'A' <= c <= 'Z' || '0' <= c <= '9'
    || c in "-_.!~*'()"
  }

  /** A payment id needs no escaping, so `encodeURIComponent(paymentId)` is
      the id itself and the request path carries it verbatim. */
  lemma PaymentIdNeedsNoEscaping(nowMs: nat, suffix: RandomSuffix)
    ensures forall i :: 0 <= i < |PaymentId(nowMs, suffix)| ==> IsUriUnreserved(PaymentId(nowMs, suffix)[i])
  {
    var digits := NatToString(nowMs);
    var id := PaymentId(nowMs, suffix);
    forall i | 0 <= i < |id| ensures IsUriUnreserved(id[i]) {
      if i < |IdPrefix| {
        assert id[i] == IdPrefix[i];
      } else if i < |IdPrefix| + |digits| {
        assert id[i] == digits[i - |IdPrefix|];
      } else if i > |IdPrefix| + |digits| {
        assert id[i] == suffix[i - |IdPrefix| - |digits| - 1];
      }
    }
  }

  // ---------------------------------------------------------------------------
  // The handler

  /** The gateway's decoded reply; the route only reads `message`. */
  datatype GatewayReply = GatewayReply(message: Option<string>)

  datatype CheckoutResponse = Charged(paymentId: string, portoneData: GatewayReply) | Refused(status: nat, error: string)
  {
    function HttpStatus(): nat
    {
      if Charged? then 200 else status
    }
  }

  /** The response once the charge has been sent: a thrown `fetch` or an
      undecodable reply is a 500 with its message; a non-ok status is
      relayed with the gateway's message, or the default one. */
  function ChargeOutcome(paymentId: string, reply: Fetch<Parsed<GatewayReply>>): (resp: CheckoutResponse)
    ensures resp.Charged? <==> reply.Replied? && reply.body.Parsed? && IsOk(reply.status)
    ensures resp.Charged? ==> resp.paymentId == paymentId && resp.portoneData == reply.body.value
    ensures reply.Replied? && reply.body.Parsed? && !IsOk(reply.status) ==>
      resp.status == reply.status && resp.error != "" && resp.error == OrDefault(reply.body.value.message, PaymentFailed)
    ensures reply.NetworkError? ==> resp == Refused(500, reply.message)
    // the route answers with a 2xx status exactly when the charge went through
    ensures IsOk(resp.HttpStatus()) <==> resp.Charged?
    ensures reply.Replied? && reply.body.Malformed? ==> resp == Refused(500, reply.body.message)
  {
    match reply
    case NetworkError(message) => Refused(500, message)
    case Replied(status, Malformed(message)) => Refused(500, message)
    case Replied(status, Parsed(data)) =>
      if !IsOk(status) then Refused(status, OrDefault(data.message, PaymentFailed))
      else Charged(paymentId, data)
  }

  /** `POST /api/payments`. `apiSecret` is `PORTONE_API_SECRET`, `nowMs` is
      `Date.now()`, `suffix` the random part of the id and `reply` the
      gateway's answer. */
  method HandleCheckout(gateway: Gateway, body: Parsed<CheckoutBody>, apiSecret: Option<string>,
                        nowMs: nat, suffix: RandomSuffix, reply: Fetch<Parsed<GatewayReply>>)
    returns (resp: CheckoutResponse)
    modifies gateway
    ensures body.Malformed? ==> resp == Refused(500, body.message) && gateway.sent == old(gateway.sent)
    ensures body.Parsed? && !HasRequiredFields(body.value) ==>
      resp == Refused(400, MissingFields) && gateway.sent == old(gateway.sent)
    ensures body.Parsed? && HasRequiredFields(body.value) && !Truthy(apiSecret) ==>
      resp == Refused(500, MissingSecret) && gateway.sent == old(gateway.sent)
    ensures body.Parsed? && HasRequiredFields(body.value) && Truthy(apiSecret) ==>
      var b := body.value;
      var id := PaymentId(nowMs, suffix);
      && gateway.sent == old(gateway.sent) + [PayWithBillingKey(id,
           BillingKeyPayment(b.billingKey.value, b.orderName.value, b.amount.value, b.customerId.value, Currency))]
      && gateway.sent[|old(gateway.sent)|].Path() == "/payments/" + id + "/billing-key"
      && resp == ChargeOutcome(id, reply)
    ensures resp.Charged? ==> resp.paymentId == PaymentId(nowMs, suffix) && |gateway.sent| == |old(gateway.sent)| + 1
  {
    if body.Malformed? {
      return Refused(500, body.message);
    }
    var b := body.value;
    if !Truthy(b.billingKey) || !Truthy(b.orderName) || !TruthyNumber(b.amount) || !Truthy(b.customerId) {
      return Refused(400, MissingFields);
    }
    if !Truthy(apiSecret) {
      return Refused(500, MissingSecret);
    }
    var paymentId := PaymentId(nowMs, suffix);
    gateway.Send(PayWithBillingKey(paymentId,
      BillingKeyPayment(b.billingKey.value, b.orderName.value, b.amount.value, b.customerId.value, Currency)));
    match reply {
      case NetworkError(message) =>
        return Refused(500, message);
      case Replied(status, Malformed(message)) =>
        return Refused(500, message);
      case Replied(status, Parsed(portoneData)) =>
        if !IsOk(status) {
          return Refused(status, OrDefault(portoneData.message, PaymentFailed));
        }
        return Charged(paymentId, portoneData);
    }
  }
}
