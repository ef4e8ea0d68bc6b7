# Subscription magazine: a Dafny model

This project models the core of a magazine site with monthly billing. The site is built on Next.js with Supabase as its store and identity provider, and PortOne as its payment gateway. The model covers these parts:

- **The PortOne webhook** (`POST /api/portone`). On a `Paid` notification it looks the payment up, computes a 30-day access window with one grace day, appends a `Paid` row to the `payment` ledger, and schedules the next charge for 10:mm on the day after the window ends.
- **The subscription status reader** (`usePaymentStatus`). It keeps the newest ledger row of every transaction key. It reports a subscription when one of those rows is `Paid` and its window contains the current time.
- **The action guards** (`useAuthGuard`, `useSubscribeGuard`). They run a callback only for a logged-in or subscribed user; otherwise they alert, or wait while loading.
- **The user hooks** (`useLoginStatus`, `useUserProfile`). They map the signed-in user to the page's shape, with fallbacks for name, email and picture, and format the join date as `YYYY.MM`.
- **The magazine hooks** (`useMagazines`, `useSubmitMagazine`) and the page's `getCategoryColor`. The list hook rewrites stored image references to public bucket URLs. The submit hook uploads the cover image under `yyyy/mm/dd/<uuid>.jpg` and inserts the row.
- **The checkout and cancel routes** (`POST /api/payments`, `POST /api/payments/cancel`). These are thin relays to the gateway.

How things are modelled:

- The ledger is the class `Ledger.PaymentTable`. The gateway is the class `PortOne.Gateway`, which records every request it is sent.
- Each stateful hook (`usePaymentStatus`, `useLoginStatus`, `useUserProfile`, `useMagazines`) is a class whose fields are the hook's React state. Alerts and navigations are recorded as sequences.
- `useSubmitMagazine` keeps no React state. Its class `MagazineSubmit.SubmitHook` holds what the hook changes: the object paths in the storage bucket, the rows of the `magazine` table, and the logs of alerts and navigations.
- The guards `useAuthGuard` and `useSubscribeGuard` keep no state of their own. They are the functions `Guards.CheckAuth` and `Guards.CheckSubscription`, which map the state of the hook they read to the list of effects a guard call has.
- Every answer from the network, the store, the clock or a random source is a parameter. This covers `fetch` results, `getUser`, inserts, uploads, `Date.now()`, `Math.random()` and `crypto.randomUUID()`.
- A failed `fetch` is `Fetch.NetworkError`. A body that is not JSON is `Parsed.Malformed`.
- JavaScript truthiness and `a || b` on optional strings are `Common.Truthy` and `Common.Or`.
- Times are integer milliseconds of local wall-clock time. Under that reading, `setDate(getDate() + n)` adds `n` days and `setHours(10, m, 0, 0)` moves to 10:m on the same day.

Where the code and the design description disagree, the model follows the code:

- The webhook handles only `Paid`. There is no `Cancelled` branch and no `Cancel` rows.
- The inserted ledger row has no `user_id`.
- The schedule request is sent even when the payment has no billing key.

## Model

| member | source | states |
|---|---|---|
| Common.Or | src/app/magazines/index.login.logout.status.hook.ts:45-47 | `a \|\| b`: the first operand when truthy, else the second; the result is truthy iff either operand is |
| Common.OrDefault | src/app/magazines/index.login.logout.status.hook.ts:45-46 | `a \|\| "literal"`: never empty when the literal is not |
| Common.MessageOr | src/app/mypages/hooks/index.payment.status.hook.ts:142 | `error instanceof Error ? error.message : fallback` |
| Common.NatToStringRoundTrip | src/app/api/portone/route.ts:53 | reading back the digits `String(n)` prints gives `n` |
| Common.Pad2RoundTrip | src/app/mypages/hooks/index.profile.hook.ts:92 | `String(n).padStart(2, '0')` for `n < 100` is two digits that read back as `n` |
| Common.IntToStringInjective | src/app/magazines/new/hooks/index.submit.hook.ts:35 | different integers print differently, signs included |
| Common.SplitFirst | src/app/mypages/hooks/index.profile.hook.ts:50 | `split(sep)[0]`: the prefix of `s` that ends where the first separator starts, or all of `s` when there is none; no separator starts inside it |
| Common.SplitSecond | src/app/magazines/index.binding.hook.ts:47-52 | `split(sep)[1]` exists exactly when the separator occurs, and is then the text that starts right after the first separator and ends where the next one starts, or at the end of `s`; no separator starts inside it |
| Common.SplitFirstOnChar | src/app/mypages/hooks/index.profile.hook.ts:50 | split on one character, the first piece holds no such character and is followed by it or by the end |
| Common.SplitSecondHasNoSeparator | src/app/magazines/index.binding.hook.ts:47-51 | the second piece of a split never contains the separator |
| Ledger.PaymentTable.Insert | src/app/api/portone/route.ts:89-103 | the row is appended exactly when the store reports no error, and the error is returned |
| PaymentStatus.BuildFilter | src/app/mypages/hooks/index.payment.status.hook.ts:59-66 | a row passes iff it has the given user id (only when the id is truthy) and its key is listed (only when the list is non-empty) |
| PaymentStatus.AbsorbGroups | src/app/mypages/hooks/index.payment.status.hook.ts:89-98 | one `reduce` step keeps the grouping invariant: keys distinct, every row's key stored, and the stored row the newest of its key |
| PaymentStatus.GroupByKeyGroups | src/app/mypages/hooks/index.payment.status.hook.ts:89-98 | the whole `reduce` satisfies the grouping invariant |
| PaymentStatus.LatestRows | src/app/mypages/hooks/index.payment.status.hook.ts:100 | `Object.values` lists one stored row per key, in first-insertion order |
| PaymentStatus.LatestRowsAreInputRows | src/app/mypages/hooks/index.payment.status.hook.ts:89-100 | every newest row is a row of the store's answer |
| PaymentStatus.LatestRowsOnePerKey | src/app/mypages/hooks/index.payment.status.hook.ts:89-100 | the newest rows are input rows with pairwise distinct keys, cover every key, and each has the maximal `created_at` of its key |
| PaymentStatus.GroupByKeyKeepsFirstLatest | src/app/mypages/hooks/index.payment.status.hook.ts:91-96 | the kept row is exactly the reference choice: the first row with the maximal `created_at` (ties keep the earlier row, since the comparison is strict) |
| PaymentStatus.FirstLatestExists | src/app/mypages/hooks/index.payment.status.hook.ts:89-98 | every key that occurs has such a reference row |
| PaymentStatus.ActivePayments | src/app/mypages/hooks/index.payment.status.hook.ts:104-118 | the filter keeps exactly the active rows, and its first element is the first active row |
| PaymentStatus.StatusOf | src/app/mypages/hooks/index.payment.status.hook.ts:68-143 | settled state: subscribed iff some newest row is `Paid` with `start_at <= now <= end_grace_at`; label "구독중" iff subscribed, else "Free"; key present iff subscribed, and then the first active newest row's key; a failed query gives Free with the error's message |
| PaymentStatus.NewestActiveRowSubscribes | src/app/mypages/hooks/index.payment.status.hook.ts:89-135 | a row strictly newer than all others with its key, and active now, makes the user subscribed |
| PaymentStatus.SupersededRowIsNotLatest | src/app/mypages/hooks/index.payment.status.hook.ts:89-100 | a row with a strictly newer row of the same key is never among the newest rows |
| PaymentStatus.SupersededPaidNeverSubscribes | src/app/mypages/hooks/index.payment.status.hook.ts:89-135 | if every active row is superseded by a newer row with its key, the user is not subscribed |
| PaymentStatus.GroupLatest | src/app/mypages/hooks/index.payment.status.hook.ts:89-100 | the in-place accumulator loop and `Object.values` compute `LatestRows` |
| PaymentStatus.PaymentStatusHook.constructor | src/app/mypages/hooks/index.payment.status.hook.ts:40-44 | the initial state is not subscribed, "Free", loading |
| PaymentStatus.PaymentStatusHook.CheckPaymentStatus | src/app/mypages/hooks/index.payment.status.hook.ts:51-145 | given a store answer that holds only rows passing the hook's filters, the hook settles on `StatusOf` of that answer |
| PortOneWebhook.DayDecomposition | src/app/api/portone/route.ts:74 | a time built from a day and an offset within it has that day and that time of day |
| PortOneWebhook.ShiftByDays | src/app/api/portone/route.ts:64-73 | adding `n` whole days moves the day by `n` and keeps the time of day |
| PortOneWebhook.WindowFrom | src/app/api/portone/route.ts:60-74 | `endAt` = start + 30 days; `endGraceAt` = `endAt` + 1 day; start < end < grace end; the next charge falls on the day after `endAt` (the grace end's day) at 10:mm with zero seconds, after `endAt` |
| PortOneWebhook.RenewalWithinGraceIff | src/app/api/portone/route.ts:63-74 | the next charge lies within grace iff the payment arrived at or after 10:mm local time |
| PortOneWebhook.PaidRow | src/app/api/portone/route.ts:89-98 | the inserted row: key = gateway payment id, amount = total, status "Paid", window and schedule fields as computed, no `user_id` |
| PortOneWebhook.ScheduleRequestFor | src/app/api/portone/route.ts:117-130 | the schedule body repeats billing key, order name, customer id and total, in KRW, due at `nextScheduleAt` |
| PortOneWebhook.HandlePortOneWebhook | src/app/api/portone/route.ts:25-181 | no effect for a malformed body or a status other than `Paid`; otherwise a lookup first; a failed lookup means no insert and no schedule; a failed insert means no schedule; otherwise exactly one row is appended and one schedule sent, and a failed schedule is a 500 that keeps the row; every schedule sent is backed by a ledger row; a 200 to a `Paid` notification means the row was stored and the schedule accepted |
| PortOneWebhook.PaidRowGrantsAccess | src/app/api/portone/route.ts:89-98 | while the inserted row is its key's newest, the reader reports a subscription from the payment until the grace end |
| PortOneWebhook.PaidRowExpiresAfterGrace | src/app/api/portone/route.ts:68-69 | the inserted row is inactive before the payment and after the grace end |
| PortOneWebhook.PaidRowInvisibleToUserFilter | src/app/api/portone/route.ts:89-98 | the inserted row carries no `user_id`, so a status query filtered by a user id never returns it |
| PortOneWebhook.WebhookPaymentNeverSubscribesUser | src/app/api/portone/route.ts:89-98 | when the ledger holds an active row the webhook inserted and every other row has lapsed, a logged-in user's query, which the store answers with the ledger rows passing the user filter, still gives Free |
| Guards.CheckAuth | src/app/magazines/index.guard.auth.hook.ts:18-26 | logged in: the action runs once and nothing is alerted; otherwise one login alert and no action |
| Guards.AuthGuardFollowsLoginHook | src/app/magazines/index.guard.auth.hook.ts:11-26 | the action runs iff the login hook holds a user |
| Guards.SubscribeGuardParams | src/app/magazines/index.guard.subscribe.hook.ts:18-21 | the status query uses the logged-in user's id and no key list |
| Guards.CheckSubscription | src/app/magazines/index.guard.subscribe.hook.ts:28-42 | loading: no effect at all; settled and subscribed: the action runs once with no alert; settled and not subscribed: one alert and no action |
| Guards.SubscribeGuardRunsIffActiveRow | src/app/magazines/index.guard.subscribe.hook.ts:28-42 | after a query, the action runs iff the query succeeded and some newest row is active |
| Guards.FailedQueryAlerts | src/app/magazines/index.guard.subscribe.hook.ts:35-38 | a failed status query makes the guard alert |
| Guards.LoggedOutGuardQueriesEveryRow | src/app/magazines/index.guard.subscribe.hook.ts:18-21 | with no user, the query has no user filter, so every row counts |
| Guards.LoggedInGuardQueriesOwnRows | src/app/magazines/index.guard.subscribe.hook.ts:18-21 | with a user, a row counts iff it carries that user's id |
| LoginStatus.ToUserInfo | src/app/magazines/index.login.logout.status.hook.ts:43-48 | id copied; email or `""`; name is `full_name`, else `name`, else "사용자", never empty; image is `avatar_url`, else `picture` |
| LoginStatus.LoginStatusHook.constructor | src/app/magazines/index.login.logout.status.hook.ts:25-26 | no user, loading |
| LoginStatus.LoginStatusHook.IsLoggedIn | src/app/magazines/index.login.logout.status.hook.ts:126 | logged in iff there is a user |
| LoginStatus.LoginStatusHook.FetchUser | src/app/magazines/index.login.logout.status.hook.ts:31-58 | an error, an exception or no user leaves no user; a user is mapped; loading ends |
| LoginStatus.LoginStatusHook.HandleLogout | src/app/magazines/index.login.logout.status.hook.ts:63-80 | success clears the user and opens `/auth/login`; an error or an exception alerts and keeps the user |
| LoginStatus.LoginStatusHook.OnAuthStateChange | src/app/magazines/index.login.logout.status.hook.ts:101-115 | a session's user is mapped, no session clears the user; loading ends |
| LoginStatus.LoginStatusHook.GoToMyPage | src/app/magazines/index.login.logout.status.hook.ts:85-87 | opens `/mypages` and changes nothing else |
| LoginStatus.LoginStatusHook.GoToLogin | src/app/magazines/index.login.logout.status.hook.ts:92-94 | opens `/auth/login` and changes nothing else |
| Profile.FormatJoinDate | src/app/mypages/hooks/index.profile.hook.ts:88-97 | the year, a dot, then two digits; an invalid date gives "NaN.NaN" |
| Profile.JoinDateMonthRoundTrip | src/app/mypages/hooks/index.profile.hook.ts:92-93 | the two digits read back as the 1-based month, between 1 and 12 |
| Profile.JoinDateSeparatesMonths | src/app/mypages/hooks/index.profile.hook.ts:88-93 | different months of one year give different join dates |
| Profile.EmailLocalPart | src/app/mypages/hooks/index.profile.hook.ts:50 | `email?.split('@')[0]`: absent with no address; otherwise the prefix of the address that holds no '@' and ends at the first '@' or at the end |
| Profile.ProfileName | src/app/mypages/hooks/index.profile.hook.ts:50 | `full_name`, else `name`, else the email's local part when it is non-empty, else "사용자"; never empty |
| Profile.NameFromEmailLocalPart | src/app/mypages/hooks/index.profile.hook.ts:50 | with no name in the metadata, the name is the address's text before its first '@' |
| Profile.ProfileImage | src/app/mypages/hooks/index.profile.hook.ts:48 | `avatar_url`, else `picture`, else null; never an empty string |
| Profile.ToProfile | src/app/mypages/hooks/index.profile.hook.ts:44-55 | id copied, image, name, email or `""`, and the formatted join date |
| Profile.ProfileHook.constructor | src/app/mypages/hooks/index.profile.hook.ts:20-22 | no profile, loading, no error |
| Profile.ProfileHook.FetchUserProfile | src/app/mypages/hooks/index.profile.hook.ts:25-64 | a lookup error or exception sets the message and keeps the profile; no user clears the profile; a user is mapped; loading ends |
| Profile.ProfileHook.OnAuthStateChange | src/app/mypages/hooks/index.profile.hook.ts:69-75 | a session refetches the profile, with the same outcomes as `FetchUserProfile`; no session clears it |
| MagazineBinding.PublicUrl | src/app/magazines/index.binding.hook.ts:56-58 | the public URL is the project URL, the bucket's public marker, then the path |
| MagazineBinding.StoragePath | src/app/magazines/index.binding.hook.ts:41-53 | a non-http(s) reference is used verbatim; an http(s) URL without the marker is used verbatim; an http(s) URL with it gives the text that starts right after the first marker and ends where the next marker starts, or at the end of the URL |
| MagazineBinding.BindMagazine | src/app/magazines/index.binding.hook.ts:34-64 | a falsy `image_url` leaves the record unchanged; otherwise only `image_url` changes, to the public URL of the storage path |
| MagazineBinding.BindAll | src/app/magazines/index.binding.hook.ts:34-64 | same length and order as the input, each record bound |
| MagazineBinding.StoragePathOfPublicUrl | src/app/magazines/index.binding.hook.ts:41-58 | a public URL of the bucket gives back its path when the marker occurs in it only once |
| MagazineBinding.StoragePathHasNoMarker | src/app/magazines/index.binding.hook.ts:47-52 | the path taken out of a URL holding the marker never holds the marker |
| MagazineBinding.BindIdempotent | src/app/magazines/index.binding.hook.ts:34-64 | binding an already bound record changes nothing when the marker occurs once |
| MagazineBinding.Limited | src/app/magazines/index.binding.hook.ts:27 | at most ten rows, a prefix of the store's answer |
| MagazineBinding.MagazineListHook.constructor | src/app/magazines/index.binding.hook.ts:14-16 | empty list, loading, no error |
| MagazineBinding.MagazineListHook.FetchMagazines | src/app/magazines/index.binding.hook.ts:19-78 | success: at most ten bound records replace the list and the error is cleared; failure: the list stays and the error is set; loading ends |
| MagazineSubmit.UploadPath | src/app/magazines/new/hooks/index.submit.hook.ts:34-43 | `yyyy/mm/dd/<uuid>.jpg`: its length, and it ends in `.jpg` |
| MagazineSubmit.UploadPathFields | src/app/magazines/new/hooks/index.submit.hook.ts:34-43 | year, two-digit month (1-based), two-digit day and uuid read back from the path |
| MagazineSubmit.UploadPathInjective | src/app/magazines/new/hooks/index.submit.hook.ts:34-43 | two uploads share a path only for the same date and uuid |
| MagazineSubmit.SignedInUser | src/app/magazines/new/hooks/index.submit.hook.ts:19-27 | a user exists iff `getUser` reported one without an error |
| MagazineSubmit.ImageUrlFor | src/app/magazines/new/hooks/index.submit.hook.ts:29-65 | `""` without a file; otherwise a URL under the project URL |
| MagazineSubmit.SubmittedImagePathRoundTrip | src/app/magazines/new/hooks/index.submit.hook.ts:61-65 | the list hook reads the uploaded path back from the stored URL |
| MagazineSubmit.SubmittedImageRebindsToItself | src/app/magazines/new/hooks/index.submit.hook.ts:61-65 | a stored image URL survives the list hook's rebinding unchanged |
| MagazineSubmit.SubmitHook.SubmitMagazine | src/app/magazines/new/hooks/index.submit.hook.ts:16-108 | true iff signed in, the image (if any) uploaded, and a row came back. No user: no upload and no insert. A failed upload: no insert. No file: no upload and `image_url` `""`. The inserted row carries the form and the user id. Success alerts and opens `/magazines/<id>`. Each failure has its alert, except an insert that returns neither an error nor a row, which returns false silently |
| CategoryColor.CategoryClass | src/app/magazines/page.tsx:8-21 | a listed category gets its class, anything else the default; every class has the common prefix |
| CategoryColor.KnownClassesDistinct | src/app/magazines/page.tsx:9-18 | the listed classes are pairwise distinct |
| PaymentsRoute.PaymentId | src/app/api/payments/route.ts:37-39 | the id starts with `payment_` |
| PaymentsRoute.PaymentIdRoundTrip | src/app/api/payments/route.ts:37-39 | `payment_<ms>_<suffix>` parses back into the time and the suffix |
| PaymentsRoute.PaymentIdsDifferByTime | src/app/api/payments/route.ts:37-39 | ids made at different milliseconds differ |
| PaymentsRoute.PaymentIdNeedsNoEscaping | src/app/api/payments/route.ts:42-44 | the id holds only characters `encodeURIComponent` leaves alone, so the request path carries it verbatim |
| PaymentsRoute.ChargeOutcome | src/app/api/payments/route.ts:66-97 | success iff the gateway replied ok with JSON, echoing the same id and the data; a non-ok reply relays the gateway's status and message (or "결제 요청 실패"); a thrown or undecodable reply is a 500 with its message; the HTTP status is 2xx exactly when the charge went through |
| PaymentsRoute.HandleCheckout | src/app/api/payments/route.ts:7-98 | a falsy billing key, order name, amount (0 included) or customer id is a 400 with no gateway call; a missing secret is a 500 with no gateway call; otherwise one billing-key charge in KRW under the fresh id, and nothing else |
| CancelRoute.CancelFailedMessage | src/app/api/payments/cancel/route.ts:49-51 | the failure message carries the gateway's status |
| CancelRoute.CancelFailedMessageDecodes | src/app/api/payments/cancel/route.ts:49-51 | the status and the gateway's text read back from the failure message |
| CancelRoute.CancelOutcome | src/app/api/payments/cancel/route.ts:45-87 | success iff the gateway replied ok with JSON, returning the same key and the current time; every other outcome is a 500 |
| CancelRoute.HandleCancel | src/app/api/payments/cancel/route.ts:10-88 | an empty or missing key is a 400 with no gateway call; otherwise one cancel request to `/payments/<key>/cancel` with reason "취소 사유 없음", and nothing else |

## Left out

- Real I/O: HTTP, Supabase queries, storage uploads and the identity provider. Their answers are parameters. The `Authorization` headers and the API secret are not modelled in the webhook and cancel routes, which do not check the secret.
- JSON decoding: a body is either its decoded fields or the decoder's message. Fields of the wrong JSON type (for example an `amount` sent as a string) are not modelled.
- Calendar details: time zones, daylight-saving shifts and month lengths in `setDate`/`setHours`, and the ISO text `toISOString` produces. Times are local milliseconds, and a day is always 24 hours.
- Query ordering: the store sorts the status query by `created_at` descending and returns the rows. The reader takes them in the order given. `PaymentStatus.PaymentStatusHook.CheckPaymentStatus` requires of the store only that every row it returns passes the hook's filters.
- `.limit(10)`: the model keeps the first ten rows of the store's answer. Which ten rows the store picks is the store's choice.
- `getPublicUrl`: the storage client is not part of this model. Its result is taken to be the project URL, then `/storage/v1/object/public/vibe-coding-storage/`, then the path, joined as plain text. `MagazineBinding.BindIdempotent`, `MagazineBinding.StoragePathOfPublicUrl` and `MagazineSubmit.SubmittedImageRebindsToItself` rely on that plain join. A client that percent-encodes the path would break them for paths with spaces or non-ASCII characters. The upload paths the submit hook makes (`yyyy/mm/dd/<uuid>.jpg`) need no encoding.
- React scheduling: effects, re-renders, unsubscribing listeners, and fetches that overlap. The loading flag that `checkPaymentStatus`, `fetchUserProfile` and `fetchMagazines` set at the start is visible only while the call is in flight. The model states the settled state.
- `console` logging, and the page markup of `src/app/magazines/page.tsx` apart from `getCategoryColor`.
- The OAuth pages, `src/lib/supabase.ts`, the browser payment hook and the browser cancel hook are not part of this model.
- `catch` fallbacks for thrown values that are not `Error` instances, in the three routes ("알 수 없는 오류가 발생했습니다"). Every failure the model admits (a bad body, a failed `fetch`, a thrown `Error`) is an `Error` instance.
- The `catch` branch of `formatJoinDate` is left out. `new Date(...)` does not throw, so an invalid date takes the main branch and prints "NaN.NaN".
- CancelRoute.HandleCancel: the transaction key goes into the request path without escaping. The model builds the path the same way, but does not model how the gateway would read a key containing `/` or `?`.
- Object key order: `Object.values` is taken to list keys in first-insertion order, which holds for keys that do not look like array indices. `colorMap` lookups of inherited keys such as `"toString"` are not modelled.
- Concurrency: duplicate webhook deliveries each append a row and a schedule. The model states this for one delivery at a time.
