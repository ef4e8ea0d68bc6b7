/** The PortOne webhook (`POST /api/portone`). On a `Paid` notification it
    looks the payment up at the gateway, computes a 30-day access window with
    one day of grace, appends one `Paid` row to the ledger, and asks the
    gateway to charge again on the day after the window ends, at 10:mm.
    Every other status is acknowledged and ignored.

    Times are milliseconds of local wall-clock time, so that `setDate` and
    `setHours` are plain arithmetic on days. */
module PortOneWebhook {
  import opened Common
  import opened Ledger
  import opened PortOne
  import PaymentStatus

  const Second := 1000
  const MinuteMs := 60 * Second
  const Hour := 60 * MinuteMs
  const Day := 24 * Hour
  const GraceDays := 1
  const PeriodDays := 30
  const ScheduleHour := 10

  /** `Math.floor(Math.random() * 60)` */
  type MinuteOfHour = m: int | 0 <= m < 60

  /** The calendar day a time falls on, and the time elapsed since its
      midnight. */
  function DayIndex(t: int): int
  {
    t / Day
  }

  function TimeOfDay(t: int): (r: int)
    ensures 0 <= r < Day
  {
    t % Day
  }

  lemma DayDecomposition(d: int, offset: int)
    requires 0 <= offset < Day
    ensures DayIndex(d * Day + offset) == d
    ensures TimeOfDay(d * Day + offset) == offset
  {
    var t := d * Day + offset;
    var q, r := t / Day, t % Day;
    assert t == q * Day + r;
    assert (d - q) * Day == r - offset;
    assert -Day < r - offset < Day;
  }

  lemma ShiftByDays(t: int, n: int)
    ensures DayIndex(t + n * Day) == DayIndex(t) + n
    ensures TimeOfDay(t + n * Day) == TimeOfDay(t)
  {
    assert t + n * Day == (DayIndex(t) + n) * Day + TimeOfDay(t);
    DayDecomposition(DayIndex(t) + n, TimeOfDay(t));
  }

  /** `new Date(endAt)`, `setDate(getDate() + 1)`, `setHours(10, minute, 0, 0)`. */
  function ScheduleTime(endAt: int, minute: MinuteOfHour): int
  {
    var next := endAt + Day;
    next - TimeOfDay(next) + ScheduleHour * Hour + minute * MinuteMs
  }

  datatype AccessWindow = AccessWindow(startAt: int, endAt: int, endGraceAt: int, nextScheduleAt: int)

  /** The dates the handler computes from `now` and the random minute. */
  function WindowFrom(now: int, minute: MinuteOfHour): (w: AccessWindow)
    ensures w.startAt == now
    ensures w.endAt == w.startAt + PeriodDays * Day
    ensures w.endGraceAt == w.endAt + GraceDays * Day
    ensures w.startAt < w.endAt < w.endGraceAt
    ensures DayIndex(w.nextScheduleAt) == DayIndex(w.endAt) + 1 == DayIndex(w.endGraceAt)
    ensures TimeOfDay(w.nextScheduleAt) == ScheduleHour * Hour + minute * MinuteMs
    ensures w.nextScheduleAt % MinuteMs == 0
    ensures w.endAt < w.nextScheduleAt
  {
    var endAt := now + PeriodDays * Day;
    var w := AccessWindow(now, endAt, now + (PeriodDays + GraceDays) * Day, ScheduleTime(endAt, minute));
    ShiftByDays(endAt, 1);
    ShiftByDays(endAt, GraceDays);
    var offset := ScheduleHour * Hour + minute * MinuteMs;
    DayDecomposition(DayIndex(endAt) + 1, offset);
    assert w.nextScheduleAt == (DayIndex(endAt) + 1) * Day + offset;
    assert w.nextScheduleAt == MinuteMs * ((DayIndex(endAt) + 1) * 24 * 60 + ScheduleHour * 60 + minute);
    w
  }

  /** The renewal charge falls inside the grace day exactly when the payment
      arrived at or after 10:mm; a payment that arrives earlier in the day
      leaves a gap between the end of grace and the renewal charge. */
  lemma RenewalWithinGraceIff(now: int, minute: MinuteOfHour)
    ensures var w := WindowFrom(now, minute);
      w.nextScheduleAt <= w.endGraceAt <==> TimeOfDay(now) >= ScheduleHour * Hour + minute * MinuteMs
  {
    var w := WindowFrom(now, minute);
    ShiftByDays(now, PeriodDays + GraceDays);
    assert w.endGraceAt == DayIndex(w.endGraceAt) * Day + TimeOfDay(now);
    assert w.nextScheduleAt == DayIndex(w.endGraceAt) * Day + TimeOfDay(w.nextScheduleAt);
  }

  /** The row the handler inserts. It carries no `user_id`. */
  function PaidRow(info: PaymentInfo, w: AccessWindow, scheduleId: string, createdAt: int): (row: PaymentRow)
    ensures row.status == Paid && row.userId.None?
    ensures row.transactionKey == info.paymentId && row.amount == info.amountTotal
    ensures row.startAt == Some(w.startAt) && row.endAt == Some(w.endAt)
    ensures row.endGraceAt == Some(w.endGraceAt)
    ensures row.nextScheduleAt == Some(w.nextScheduleAt) && row.nextScheduleId == Some(scheduleId)
  {
    PaymentRow(info.paymentId, info.amountTotal, Paid, Some(w.startAt), Some(w.endAt),
      Some(w.endGraceAt), Some(w.nextScheduleAt), Some(scheduleId), createdAt, None)
  }

  /** The body of the schedule request for the next charge. */
  function ScheduleRequestFor(info: PaymentInfo, w: AccessWindow): (r: ScheduleRequest)
    ensures r.billingKey == info.billingKey && r.orderName == info.orderName
    ensures r.customerId == info.customerId && r.amountTotal == info.amountTotal
    ensures r.currency == Currency && r.timeToPay == w.nextScheduleAt
  {
    ScheduleRequest(info.billingKey, info.orderName, info.customerId, info.amountTotal, Currency, w.nextScheduleAt)
  }

  datatype WebhookBody = WebhookBody(paymentId: string, status: string)

  datatype WebhookResponse =
    | Acknowledged
    | Completed(paymentId: string, amount: int, billingKey: Option<string>,
                nextScheduleId: string, nextScheduleAt: int, endAt: int, endGraceAt: int)
    | Failed(message: string)
  {
    function HttpStatus(): nat
    {
      if Failed? then 500 else 200
    }
  }

  function LookupFailedMessage(status: nat): string
  {
    "포트원 결제 정보 조회 실패: " + NatToString(status)
  }

  function InsertFailedMessage(message: string): string
  {
    "Supabase 저장 실패: " + message
  }

  function ScheduleFailedMessage(status: nat, text: string): string
  {
    "구독 예약 실패: " + NatToString(status) + " - " + text
  }

  /** Every schedule the gateway was asked for is backed by a ledger row that
      names it: its id is the row's `next_schedule_id` and its time the row's
      `next_schedule_at`. */
  ghost predicate SchedulesBacked(table: PaymentTable, gateway: Gateway)
    reads table, gateway
  {
    forall i :: 0 <= i < |gateway.sent| && gateway.sent[i].CreateSchedule? ==>
      exists row :: row in table.rows
                    && row.nextScheduleId == Some(gateway.sent[i].scheduleId)
                    && row.nextScheduleAt == Some(gateway.sent[i].schedule.timeToPay)
  }

  /** `POST /api/portone`. The gateway's and the store's answers, the clock,
      the random minute and the fresh schedule id are parameters. */
  method HandlePortOneWebhook(
    table: PaymentTable, gateway: Gateway,
    body: Parsed<WebhookBody>, lookup: Fetch<Parsed<PaymentInfo>>, now: int, minute: MinuteOfHour,
    scheduleId: string, createdAt: int, insertError: Option<string>, schedule: Fetch<string>)
    returns (resp: WebhookResponse)
    requires SchedulesBacked(table, gateway)
    modifies table, gateway
    ensures SchedulesBacked(table, gateway)
    ensures old(table.rows) <= table.rows
    // a 200 to a Paid notification means the row was stored and the next
    // charge accepted
    ensures body.Parsed? && body.value.status == Paid && resp.HttpStatus() == 200 ==>
      resp.Completed? && |table.rows| == |old(table.rows)| + 1
    // a body that is not JSON, or a status other than Paid: nothing happens
    ensures body.Malformed? ==>
      resp == Failed(body.message) && table.rows == old(table.rows) && gateway.sent == old(gateway.sent)
    ensures body.Parsed? && body.value.status != Paid ==>
      resp == Acknowledged && table.rows == old(table.rows) && gateway.sent == old(gateway.sent)
    // a Paid notification always looks the payment up first
    ensures body.Parsed? && body.value.status == Paid ==>
      |gateway.sent| > |old(gateway.sent)| && gateway.sent[..|old(gateway.sent)| + 1] == old(gateway.sent) + [GetPayment(body.value.paymentId)]
    // the lookup fails: 500, nothing inserted, nothing scheduled
    ensures body.Parsed? && body.value.status == Paid && lookup.NetworkError? ==>
      resp == Failed(lookup.message) && table.rows == old(table.rows)
      && gateway.sent == old(gateway.sent) + [GetPayment(body.value.paymentId)]
    ensures body.Parsed? && body.value.status == Paid && lookup.Replied? && !IsOk(lookup.status) ==>
      resp == Failed(LookupFailedMessage(lookup.status)) && table.rows == old(table.rows)
      && gateway.sent == old(gateway.sent) + [GetPayment(body.value.paymentId)]
    ensures body.Parsed? && body.value.status == Paid && lookup.Replied? && IsOk(lookup.status) && lookup.body.Malformed? ==>
      resp == Failed(lookup.body.message) && table.rows == old(table.rows)
      && gateway.sent == old(gateway.sent) + [GetPayment(body.value.paymentId)]
    // the insert fails: 500, no schedule request
    ensures body.Parsed? && body.value.status == Paid && lookup.Replied? && IsOk(lookup.status) && lookup.body.Parsed?
            && insertError.Some? ==>
      resp == Failed(InsertFailedMessage(insertError.value)) && table.rows == old(table.rows)
      && gateway.sent == old(gateway.sent) + [GetPayment(body.value.paymentId)]
    // the row is inserted and the next charge is requested; a failed
    // schedule request is a 500, but the row stays
    ensures body.Parsed? && body.value.status == Paid && lookup.Replied? && IsOk(lookup.status) && lookup.body.Parsed?
            && insertError.None? ==>
      var info := lookup.body.value;
      var w := WindowFrom(now, minute);
      && table.rows == old(table.rows) + [PaidRow(info, w, scheduleId, createdAt)]
      && gateway.sent == old(gateway.sent) + [GetPayment(body.value.paymentId),
                                              CreateSchedule(scheduleId, ScheduleRequestFor(info, w))]
      && resp == match schedule {
           case NetworkError(m) => Failed(m)
           case Replied(status, text) =>
             if IsOk(status)
             then Completed(info.paymentId, info.amountTotal, info.billingKey,
                            scheduleId, w.nextScheduleAt, w.endAt, w.endGraceAt)
             else Failed(ScheduleFailedMessage(status, text))
         }
  {
    if body.Malformed? {
      return Failed(body.message);
    }
    var paymentId, status := body.value.paymentId, body.value.status;
    if status != Paid {
      return Acknowledged;
    }
    gateway.Send(GetPayment(paymentId));
    assert SchedulesBacked(table, gateway);
    match lookup {
      case NetworkError(m) =>
        return Failed(m);
      case Replied(lookupStatus, decoded) =>
        if !IsOk(lookupStatus) {
          return Failed(LookupFailedMessage(lookupStatus));
        }
        if decoded.Malformed? {
          return Failed(decoded.message);
        }
        var info := decoded.value;
        var w := WindowFrom(now, minute);
        var row := PaidRow(info, w, scheduleId, createdAt);
        var err := table.Insert(row, insertError);
        if err.Some? {
          return Failed(InsertFailedMessage(err.value));
        }
        var request := ScheduleRequestFor(info, w);
        gateway.Send(CreateSchedule(scheduleId, request));
        assert row in table.rows;
        match schedule {
          case NetworkError(m) =>
            return Failed(m);
          case Replied(scheduleStatus, text) =>
            if !IsOk(scheduleStatus) {
              return Failed(ScheduleFailedMessage(scheduleStatus, text));
            }
            return Completed(info.paymentId, info.amountTotal, info.billingKey,
                             scheduleId, w.nextScheduleAt, w.endAt, w.endGraceAt);
        }
    }
  }

  // ---------------------------------------------------------------------------
  // How the inserted row reads back

  /** The row the handler inserts makes the reader report a subscription at
      every instant from `now` to the end of grace, as long as no row with
      the same key is at least as new. */
  lemma PaidRowGrantsAccess(rows: seq<PaymentRow>, i: int, info: PaymentInfo, now: int,
                            minute: MinuteOfHour, scheduleId: string, t: int)
    requires 0 <= i < |rows|
    requires rows[i] == PaidRow(info, WindowFrom(now, minute), scheduleId, rows[i].createdAt)
    requires forall j :: 0 <= j < |rows| && j != i && rows[j].transactionKey == info.paymentId
                         ==> rows[j].createdAt < rows[i].createdAt
    requires now <= t <= now + (PeriodDays + GraceDays) * Day
    ensures PaymentStatus.StatusOf(PaymentStatus.Rows(rows), t).isSubscribed
  {
    assert PaymentStatus.IsActive(rows[i], t);
    PaymentStatus.NewestActiveRowSubscribes(rows, i, t);
  }

  /** The row the handler inserts stops granting access one millisecond after
      the end of grace. */
  lemma PaidRowExpiresAfterGrace(info: PaymentInfo, now: int, minute: MinuteOfHour,
                                 scheduleId: string, createdAt: int, t: int)
    requires t > now + (PeriodDays + GraceDays) * Day || t < now
    ensures !PaymentStatus.IsActive(PaidRow(info, WindowFrom(now, minute), scheduleId, createdAt), t)
  {
  }

  /** The inserted row has no `user_id`, so a status query filtered by a
      user id never sees it. */
  lemma PaidRowInvisibleToUserFilter(info: PaymentInfo, w: AccessWindow, scheduleId: string,
                                     createdAt: int, userId: string, keys: Option<seq<string>>)
    requires userId != ""
    ensures !PaymentStatus.Matches(PaidRow(info, w, scheduleId, createdAt),
                                   PaymentStatus.BuildFilter(PaymentStatus.StatusParams(Some(userId), keys)))
  {
  }

  /** End to end: the ledger holds an active row the handler inserted, and
      every other row has lapsed. A logged-in user's status query still
      reports Free: the inserted row carries no `user_id`, so the store never
      returns it to a query filtered by the user's id. */
  lemma WebhookPaymentNeverSubscribesUser(ledger: seq<PaymentRow>, info: PaymentInfo, w: AccessWindow,
                                          scheduleId: string, createdAt: int, answer: seq<PaymentRow>,
                                          userId: string, now: int)
    requires userId != ""
    requires PaidRow(info, w, scheduleId, createdAt) in ledger
    requires PaymentStatus.IsActive(PaidRow(info, w, scheduleId, createdAt), now)
    requires forall r :: r in ledger && r != PaidRow(info, w, scheduleId, createdAt) ==> !PaymentStatus.IsActive(r, now)
    requires forall r :: r in answer <==>
      r in ledger && PaymentStatus.Matches(r, PaymentStatus.BuildFilter(PaymentStatus.StatusParams(Some(userId), None)))
    ensures !PaymentStatus.StatusOf(PaymentStatus.Rows(answer), now).isSubscribed
  {
    var latest := PaymentStatus.LatestRows(answer);
    PaymentStatus.LatestRowsAreInputRows(answer);
    PaidRowInvisibleToUserFilter(info, w, scheduleId, createdAt, userId, None);
    forall p | p in latest ensures !PaymentStatus.IsActive(p, now) {
      assert p in answer;
    }
  }
}
