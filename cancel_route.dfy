/** `POST /api/payments/cancel`: asks the gateway to cancel a payment by its
    transaction key and reports the outcome. It writes nothing to the
    database. */
module CancelRoute {
  import opened Common
  import opened PortOne

  const KeyRequired := "transactionKey가 필요합니다"
  const NoReason := "취소 사유 없음"
  const CancelFailedPrefix := "결제 취소 실패: "

  /** The decoded request body. */
  datatype CancelBody = CancelBody(transactionKey: Option<string>)

  /** The gateway's reply as text, and the `SyntaxError` message when that
      text is not JSON. */
  datatype ReplyText = ReplyText(text: string, jsonError: Option<string>)

  datatype CancelResponse = Cancelled(transactionKey: string, cancelledAt: int) | CancelRefused(status: nat, error: string)
  {
    function HttpStatus(): nat
    {
      if Cancelled? then 200 else status
    }
  }

  /** `결제 취소 실패: ${status} - ${errorText}` */
  function CancelFailedMessage(status: nat, text: string): (m: string)
    ensures StartsWith(m, CancelFailedPrefix)
    ensures OccursAt(m, NatToString(status), |CancelFailedPrefix|)
  {
    CancelFailedPrefix + NatToString(status) + " - " + text
  }

  /** The status and the gateway's text can both be read back from the
      failure message. */
  lemma CancelFailedMessageDecodes(status: nat, text: string)
    ensures var m := CancelFailedMessage(status, text);
      var n := |CancelFailedPrefix| + |NatToString(status)|;
      && AllDigits(m[|CancelFailedPrefix|..n]) && DigitsValue(m[|CancelFailedPrefix|..n]) == status
      && m[n..n + 3] == " - " && m[n + 3..] == text
  {
    var m := CancelFailedMessage(status, text);
    var n := |CancelFailedPrefix| + |NatToString(status)|;
    assert m[|CancelFailedPrefix|..n] == NatToString(status);
    assert m[n..n + 3] == " - ";
    assert m[n + 3..] == text;
    NatToStringRoundTrip(status);
  }

  /** The response once the cancellation has been sent. A non-ok status is
      rethrown as an `Error`, so every failure after the call is a 500. */
  function CancelOutcome(key: string, now: int, reply: Fetch<ReplyText>): (resp: CancelResponse)
    ensures resp.Cancelled? <==> reply.Replied? && IsOk(reply.status) && reply.body.jsonError.None?
    ensures resp.Cancelled? ==> resp.transactionKey == key && resp.cancelledAt == now
    ensures resp.CancelRefused? ==> resp.status == 500
    ensures resp.HttpStatus() == (if resp.Cancelled? then 200 else 500)
    ensures reply.Replied? && !IsOk(reply.status) ==>
      resp.error == CancelFailedMessage(reply.status, reply.body.text)
  {
    match reply
    case NetworkError(message) => CancelRefused(500, message)
    case Replied(status, body) =>
      if !IsOk(status) then CancelRefused(500, CancelFailedMessage(status, body.text))
      else if body.jsonError.Some? then CancelRefused(500, body.jsonError.value)
      else Cancelled(key, now)
  }

  /** `POST /api/payments/cancel`. `now` is `new Date()` and `reply` the
      gateway's answer. */
  method HandleCancel(gateway: Gateway, body: Parsed<CancelBody>, now: int, reply: Fetch<ReplyText>)
    returns (resp: CancelResponse)
    modifies gateway
    ensures body.Malformed? ==> resp == CancelRefused(500, body.message) && gateway.sent == old(gateway.sent)
    ensures body.Parsed? && !Truthy(body.value.transactionKey) ==>
      resp == CancelRefused(400, KeyRequired) && gateway.sent == old(gateway.sent)
    ensures body.Parsed? && Truthy(body.value.transactionKey) ==>
      var key := body.value.transactionKey.value;
      && gateway.sent == old(gateway.sent) + [CancelPayment(key, NoReason)]
      && gateway.sent[|old(gateway.sent)|].Path() == "/payments/" + key + "/cancel"
      && resp == CancelOutcome(key, now, reply)
    ensures resp.Cancelled? ==> Some(resp.transactionKey) == body.value.transactionKey
  {
    if body.Malformed? {
      return CancelRefused(500, body.message);
    }
    var transactionKey := body.value.transactionKey;
    if !Truthy(transactionKey) {
      return CancelRefused(400, KeyRequired);
    }
    var key := transactionKey.value;
    gateway.Send(CancelPayment(key, NoReason));
    match reply {
      case NetworkError(message) =>
        return CancelRefused(500, message);
      case Replied(status, replyBody) =>
        if !IsOk(status) {
          return CancelRefused(500, CancelFailedMessage(status, replyBody.text));
        }
        if replyBody.jsonError.Some? {
          return CancelRefused(500, replyBody.jsonError.value);
        }
        return Cancelled(key, now);
    }
  }
}
