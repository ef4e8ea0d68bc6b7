/** The PortOne payment gateway as the routes see it: each `fetch` either
    yields an HTTP status with an already decoded body, or throws (network
    failure). Every request a route sends is recorded as a `Request`. */
module PortOne {
  import opened Common

  /** `response.ok`: the status is in the range 200-299. */
  predicate IsOk(status: nat)
  {
    200 <= status <= 299
  }

  datatype Fetch<T> = Replied(status: nat, body: T) | NetworkError(message: string)

  const Currency := "KRW"

  /** The payment details `GET /payments/{id}` returns. */
  datatype PaymentInfo = PaymentInfo(
    paymentId: string,
    amountTotal: int,
    billingKey: Option<string>,
    orderName: string,
    customerId: string)

  /** Body of `POST /payments/{id}/schedule`. */
  datatype ScheduleRequest = ScheduleRequest(
    billingKey: Option<string>,
    orderName: string,
    customerId: string,
    amountTotal: int,
    currency: string,
    timeToPay: int)

  /** Body of `POST /payments/{id}/billing-key`. */
  datatype BillingKeyPayment = BillingKeyPayment(
    billingKey: string,
    orderName: string,
    amountTotal: int,
    customerId: string,
    currency: string)

  datatype Request =
    | GetPayment(paymentId: string)
    | CreateSchedule(scheduleId: string, schedule: ScheduleRequest)
    | PayWithBillingKey(paymentId: string, payment: BillingKeyPayment)
    | CancelPayment(transactionKey: string, reason: string)
  {
    /** The request path below `https://api.portone.io`. */
    function Path(): string
    {
      match this
      case GetPayment(id) => "/payments/" + id
      case CreateSchedule(id, _) => "/payments/" + id + "/schedule"
      case PayWithBillingKey(id, _) => "/payments/" + id + "/billing-key"
      case CancelPayment(key, _) => "/payments/" + key + "/cancel"
    }
  }

  /** The requests the gateway has received, oldest first. */
  class Gateway {
    var sent: seq<Request>

    constructor()
      ensures sent == []
    {
      sent := [];
    }

    method Send(r: Request)
      modifies this
      ensures sent == old(sent) + [r]
    {
      sent := sent + [r];
    }
  }
}
