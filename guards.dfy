/** The two action guards of the magazine pages: `useAuthGuard` runs an
    action only for a logged-in user, `useSubscribeGuard` only for a user
    whose payment status is settled and subscribed. An action is a callback;
    the model records what a call of the guard does as a list of effects. */
module Guards {
  import opened Common
  import opened Ledger
  import LoginStatus
  import PaymentStatus

  const LoginRequired := "로그인 후 이용 가능합니다"
  const SubscriptionRequired := "구독 후 이용 가능합니다."

  /** What a guard call does: show an alert, or call the action. */
  datatype Effect = Alert(message: string) | RunAction

  function Runs(effects: seq<Effect>): nat
  {
    if effects == [] then 0
    else (if effects[0].RunAction? then 1 else 0) + Runs(effects[1..])
  }

  function Alerts(effects: seq<Effect>): nat
  {
    if effects == [] then 0
    else (if effects[0].Alert? then 1 else 0) + Alerts(effects[1..])
  }

  /** `checkAuth(action)`: the action runs exactly once when logged in;
      otherwise one alert asks the user to log in and nothing runs. */
  function CheckAuth(isLoggedIn: bool): (effects: seq<Effect>)
    ensures Runs(effects) == (if isLoggedIn then 1 else 0)
    ensures Alerts(effects) == (if isLoggedIn then 0 else 1)
    ensures forall e :: e in effects && e.Alert? ==> e.message == LoginRequired
  {
    if !isLoggedIn then [Alert(LoginRequired)] else [RunAction]
  }

  /** The parameters `useSubscribeGuard` passes to the status hook:
      `{ userId: user?.id }` and no transaction keys. */
  function SubscribeGuardParams(user: Option<LoginStatus.UserInfo>): (p: PaymentStatus.StatusParams)
    ensures p.transactionKeys.None?
    ensures user.Some? ==> p.userId == Some(user.value.id)
    ensures user.None? ==> p.userId.None?
  {
    PaymentStatus.StatusParams(if user.Some? then Some(user.value.id) else None, None)
  }

  /** `checkSubscription(action)` over the status hook's current state:
      nothing at all happens while the status is loading; once settled, the
      action runs exactly once when subscribed, and otherwise one alert is
      shown and nothing runs. */
  function CheckSubscription(status: PaymentStatus.StatusResult): (effects: seq<Effect>)
    ensures status.isLoading ==> effects == []
    ensures Runs(effects) == (if !status.isLoading && status.isSubscribed then 1 else 0)
    ensures Alerts(effects) == (if !status.isLoading && !status.isSubscribed then 1 else 0)
    ensures forall e :: e in effects && e.Alert? ==> e.message == SubscriptionRequired
  {
    if status.isLoading then []
    else if !status.isSubscribed then [Alert(SubscriptionRequired)]
    else [RunAction]
  }

  /** After a query, the subscribe guard runs the action only when the query
      succeeded and one of the newest rows per transaction key is `Paid` and
      in its window at `now`; and then it always does. */
  lemma SubscribeGuardRunsIffActiveRow(query: PaymentStatus.QueryResult, now: int)
    ensures Runs(CheckSubscription(PaymentStatus.StatusOf(query, now))) == 1 <==>
      query.Rows? && exists p :: p in PaymentStatus.LatestRows(query.rows) && PaymentStatus.IsActive(p, now)
  {
  }

  /** A failed status query makes the guard alert, never run. */
  lemma FailedQueryAlerts(e: Thrown, now: int)
    ensures CheckSubscription(PaymentStatus.StatusOf(PaymentStatus.QueryFailed(e), now))
            == [Alert(SubscriptionRequired)]
  {
  }

  /** With no logged-in user the guard's query has no `user_id` filter, so
      every row of the ledger, whoever paid it, takes part in the decision. */
  lemma LoggedOutGuardQueriesEveryRow(row: PaymentRow)
    ensures PaymentStatus.Matches(row, PaymentStatus.BuildFilter(SubscribeGuardParams(None)))
  {
  }

  /** With a logged-in user, only rows carrying that user's id take part. */
  lemma LoggedInGuardQueriesOwnRows(user: LoginStatus.UserInfo, row: PaymentRow)
    requires user.id != ""
    ensures PaymentStatus.Matches(row, PaymentStatus.BuildFilter(SubscribeGuardParams(Some(user))))
            <==> row.userId == Some(user.id)
  {
  }

  /** The auth guard follows the login hook: the action runs exactly when the
      hook holds a user. */
  lemma AuthGuardFollowsLoginHook(hook: LoginStatus.LoginStatusHook)
    ensures Runs(CheckAuth(hook.IsLoggedIn())) == 1 <==> hook.user.Some?
  {
  }
}
