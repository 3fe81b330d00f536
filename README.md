# Payment ledger and dashboard client, in Dafny

This project models the core of a small fintech application. It has two parts.

The first part is a Laravel API. A customer submits a payment. The controller validates it, checks the customer's balance and creates the payment `pending`. The payment service then processes it inside one database transaction:

- it debits the payer with a `debit` ledger entry;
- it marks the payment `processing`;
- it completes the payment, crediting the recipient when the recipient's email belongs to a user;
- it broadcasts `BalanceUpdated` and `PaymentStatusChanged` events over Reverb/Pusher channels, which `routes/channels.php` authorises.

The second part is the Next.js dashboard:

- a websocket client with a listener registry, message routing and reconnect backoff;
- a balance card that reduces balance updates into a bounded recent-activity list;
- a payment card with a form validator and a status machine driven by payment-status events.

Modelling choices:

- Amounts are integer cents. The `decimal:2` casts are modelled as text with exactly two fractional digits, and that text reads back as the same cents.
- Row ids are 1-based positions in their table.
- Server state is the class `Database.Ledger`, whose tables are sequences. It is updated one row at a time.
- Each `DB::transaction` block is one method: `PaymentService.PaymentService.ProcessPayment`, `CompletePayment` and `PaymentController.PaymentController.Store`. Each method is proved equal to a function on a `Tables` snapshot (`Process`, `Complete`, `Stored`), and the ledger properties are lemmas about those functions.
- The client's stateful pieces are classes: `WebSocketClient`, `BalanceCard` and `FlowCard`. Their pure parts are functions.

The module `Delivery` connects the two sides. It covers which server events reach which client listeners, and how a balance update appears on the card.

Five places where the code does something its authors evidently did not intend are listed under Findings. Each is modelled as written and as corrected. The payment flow's properties are stated for the corrected version, and the as-written behaviour is stated beside them.

## Model

| member | source | states |
|---|---|---|
| Numerals.ParseIntOfNatToString | api/routes/channels.php:7-9 | the decimal text of a user or payment id binds back to the same `int` route parameter |
| Numerals.Decimal2RoundTrip | api/app/Models/Payment.php:23-25 | the 2-decimal cast of any amount of cents, negative included, reads back as the same cents |
| Payments.Statuses | api/app/Models/Payment.php:27-43 | exactly pending, successful, failed, refunded in that order, pairwise distinct; neither `processing` nor `completed` is among them |
| Payments.Related | api/app/Models/Payment.php:45-48 | the only declared relation is `customer`, which yields the payment's `customer_id`; any other relation name reads as null |
| Payments.KeyColumn | api/database/migrations/2025_08_11_224934_create_payments_table.php:15-16 | `id` and `customer_id` are the payment's integer keys; any other attribute (such as `user_id`) reads as null |
| Payments.FindById | api/routes/channels.php:13 | a found payment is in the table with that id; nothing found means no payment has that id |
| Payments.AmountText | api/app/Models/Payment.php:23-25 | the cast amount has a point before exactly two digits and reads back as the stored cents |
| Transactions.Types | api/app/Models/Transaction.php:14-36 | exactly credit then debit, and the two differ |
| Transactions.NetAppend | api/app/Models/User.php:80-83 | appending an entry moves only its owner's net, by plus the amount for a credit and minus it for a debit |
| Transactions.AmountText | api/app/Models/Transaction.php:26-28 | the cast amount has a point before exactly two digits and reads back as the stored cents |
| Users.HasSufficientBalance | api/app/Models/User.php:75-78 | true exactly when the amount is at most the balance, equality included |
| Users.SufficientBalanceMonotone | api/app/Models/User.php:77 | still sufficient for a larger balance and for a smaller amount |
| Users.PaymentsOf | api/app/Models/User.php:70-73 | a user's payments are exactly those whose `customer_id` is the user's id |
| Users.TransactionsOf | api/app/Models/User.php:80-83 | a user's entries are exactly those whose `user_id` is the user's id |
| Users.FindByEmail | api/app/Services/PaymentService.php:50 | the first user, in table order, whose email equals the recipient string, or none when no email matches |
| Users.FindByEmailIgnoresBalance | api/app/Services/PaymentService.php:50 | changing a balance (the payer's debit) does not change which user the recipient lookup finds |
| Users.Adjust | api/app/Services/PaymentService.php:26-27 | only the named user's balance changes, by exactly the delta; names, emails and other users are kept |
| Users.TotalBalanceAdjust | api/app/Services/PaymentService.php:60-61 | changing one balance by a delta changes the sum of all balances by exactly that delta |
| CreatePaymentRequest.Authorize | api/app/Http/Requests/CreatePaymentRequest.php:9-12 | every request is authorised |
| CreatePaymentRequest.Validate | api/app/Http/Requests/CreatePaymentRequest.php:14-23 | valid iff all four field rules hold; otherwise the error names exactly the failing fields; valid data has the amount's value in cents (a JSON number or a numeric string), at least 1 cent, a recipient that is not blank once trimmed and has at most 150 characters, a currency of at most 5 and a description of at most 150 |
| CreatePaymentRequest.AmountTextAccepted | api/app/Http/Requests/CreatePaymentRequest.php:18 | `numeric` accepts an amount sent as a string: the two-decimal text of any positive amount, and a whole number of units, pass with their value in cents |
| CreatePaymentRequest.BlankRecipientRefused | api/app/Http/Requests/CreatePaymentRequest.php:20 | `required` refuses a recipient that is empty once trimmed, whatever else is sent |
| Numerals.ParseAmountOfText | api/app/Http/Requests/CreatePaymentRequest.php:18 | the two-decimal text of any amount reads back as the same cents |
| BalanceUpdated.BroadcastAs | api/app/Events/BalanceUpdated.php:24-27 | the broadcast name is `balance.updated` whatever the event |
| BalanceUpdated.PayloadCopiesEntry | api/app/Events/BalanceUpdated.php:29-43 | the payload carries the user's balance and copies the entry's id, type and description; its amount text reads back as the entry amount |
| BalanceUpdated.ChangeIsSignedAmount | api/app/Events/BalanceUpdated.php:33-35 | the change is what the entry adds to the balance: plus the amount for a credit, minus it for a debit; it is positive exactly for a credit |
| BalanceUpdated.ChannelIdentifiesUser | api/app/Events/BalanceUpdated.php:19-22 | two updates share a `customer.` channel exactly when they are about the same user |
| PaymentStatusChanged.BroadcastAs | api/app/Events/PaymentStatusChanged.php:24-27 | the broadcast name is `payment.status.updated` whatever the event |
| PaymentStatusChanged.StatusMessage | api/app/Events/PaymentStatusChanged.php:38-46 | each of the three named statuses gets its own message, and exactly the other statuses get the generic one |
| PaymentStatusChanged.BroadcastWith | api/app/Events/PaymentStatusChanged.php:29-36 | the payload's id and status are the payment's, and its message is the status's message |
| PaymentStatusChanged.DeclaredStatusMessages | api/app/Events/PaymentStatusChanged.php:38-46 | of the declared statuses only `pending` has a message of its own |
| Channels.MatchParameter | api/routes/channels.php:7-12 | a matched name is the pattern prefix followed by a non-empty, dot-free parameter |
| Channels.MatchParameterOf | api/routes/channels.php:7-12 | a prefix followed by a non-empty, dot-free parameter matches with exactly that parameter |
| Channels.AuthorizeCustomer | api/routes/channels.php:7-9 | an error exactly when the parameter is not an integer; otherwise granted iff it is the user's id |
| Channels.PaymentChannelAsWrittenDeniesOwner | api/routes/channels.php:12-16 | as written, comparing `user_id` refuses every existing payment's channel to every user, its owner included |
| Channels.PaymentChannelOwnerOnly | api/routes/channels.php:12-16 | corrected to `customer_id`: a missing payment is a not-found error, and an existing one is granted exactly to its owner |
| Channels.CustomerChannelOwnerOnly | api/routes/channels.php:7-9 | `customer.<id>` is granted exactly when the id is the user's own |
| Channels.CustomerChannelStatuses | api/routes/channels.php:7-9 | the endpoint answers 200 for the user's own customer channel and 403 for the next id |
| Channels.BalanceBroadcastReachesEveryone | api/app/Events/BalanceUpdated.php:19-22 | as written the balance channel is public, so every user receives every user's balance updates |
| Channels.PrivateBalanceChannelOwnerOnly | api/app/Events/BalanceUpdated.php:19-22 | corrected to a private channel, exactly the user the update is about receives it |
| Channels.StatusBroadcastReachesEveryone | api/app/Events/PaymentStatusChanged.php:19-22 | as written the payment channel is public, so every user receives every payment's status updates |
| Channels.PrivateStatusChannelOwnerOnly | api/app/Events/PaymentStatusChanged.php:19-22 | corrected to a private channel authorised through `customer_id`, exactly the payment's owner receives its status updates |
| Database.Ledger.Restore | api/app/Services/PaymentService.php:16 | rolling back returns every table and the event log to the snapshot |
| Database.Ledger.InsertTransaction | api/app/Services/PaymentService.php:18-23 | the entry gets the next id and is appended; nothing else changes |
| Database.Ledger.InsertPayment | api/app/Http/Controllers/Api/PaymentController.php:53-58 | the payment gets the next id and is appended; nothing else changes |
| Database.Ledger.AddToBalance | api/app/Services/PaymentService.php:26-27 | only that user's balance changes, by the delta; the saved user is returned |
| Database.Ledger.SetStatus | api/app/Services/PaymentService.php:30-31 | saved exactly when the status column accepts the value; a refused save changes nothing |
| Database.Ledger.Dispatch | api/app/Services/PaymentService.php:34-35 | the event is appended to the broadcast log; nothing else changes |
| PaymentService.StatusColumnAccepts | api/database/migrations/2025_08_11_224934_create_payments_table.php:21 | the corrected status column accepts both `processing` and `completed` |
| PaymentService.Complete | api/app/Services/PaymentService.php:42-68 | when completion succeeds the tables stay well formed (ids, foreign keys, entry types) and keep their numbers of users and payments |
| PaymentService.Debited | api/app/Services/PaymentService.php:16-35 | the debit half keeps the tables well formed and keeps the numbers of users and payments |
| PaymentService.Process | api/app/Services/PaymentService.php:14-40 | when processing succeeds the tables stay well formed and keep their numbers of users and payments |
| PaymentService.ProcessAsWrittenThrows | api/app/Services/PaymentService.php:18 | as written (payer read through `user`), processing throws at its first step for every payment |
| PaymentService.ProcessColumnAsWrittenThrows | api/app/Services/PaymentService.php:30-31 | with the schema's status enum, processing throws when it saves `processing` |
| PaymentService.CompleteAsWrittenThrows | api/app/Services/PaymentService.php:46-56 | as written completion throws at the status save; with only the column corrected it throws exactly when the recipient is a user |
| PaymentService.CompleteSucceeds | api/app/Services/PaymentService.php:42-68 | corrected, completion never throws and keeps the tables well formed |
| PaymentService.ProcessSucceeds | api/app/Services/PaymentService.php:14-40 | corrected, processing never throws; the payment ends `completed`, no other payment changes, and `completed` is not a declared status |
| PaymentService.ProcessEntries | api/app/Services/PaymentService.php:18-58 | the old entries stay, then one debit of the amount for the payer ("Payment to " + recipient), then exactly when the recipient is a user one credit of the amount for them ("Payment from " + payer name), both naming the payment |
| PaymentService.CompleteBalances | api/app/Services/PaymentService.php:60-61 | completion raises an internal recipient's balance by the amount and changes no other balance, name or email |
| PaymentService.ProcessBalances | api/app/Services/PaymentService.php:26-61 | the payer loses the amount, an internal recipient gains it, and no other balance, name or email changes |
| PaymentService.ProcessTotal | api/app/Services/PaymentService.php:26-61 | the sum of all balances is unchanged for an internal recipient and drops by the amount for an external one |
| PaymentService.ProcessMayOverdraw | api/app/Services/PaymentService.php:14-31 | processing checks no balance: a payer below the amount, paying anyone but themselves, ends negative |
| PaymentService.DebitedKeepsDrift | api/app/Services/PaymentService.php:18-27 | the debit moves the payer's balance and the net of their entries alike |
| PaymentService.CompleteTotal | api/app/Services/PaymentService.php:53-61 | completion raises the sum of all balances by the amount when the recipient is a user and leaves it unchanged otherwise |
| PaymentService.CompleteEvents | api/app/Services/PaymentService.php:46-66 | completion keeps the old entries and events, appends one credit entry exactly when the recipient is a user, then that user's balance update carrying the entry and their balance after the credit, then a status change for this payment, as saved, whose message says completed |
| PaymentService.CompleteKeepsDrift | api/app/Services/PaymentService.php:53-61 | the credit moves the recipient's balance and the net of their entries alike |
| PaymentService.ProcessKeepsDrift | api/app/Services/PaymentService.php:14-68 | every user's gap between stored balance and the net of their entries is unchanged |
| PaymentService.ProcessReconciles | api/app/Services/PaymentService.php:14-68 | if every balance equals the net of its owner's entries before processing, it does after |
| PaymentService.ProcessEvents | api/app/Services/PaymentService.php:26-66 | events in order: the payer's balance update carrying the debit and their balance less the amount; the status change of this payment with the processing message; when the recipient is a user, that user's balance update carrying the credit and their final balance; the status change of this payment, as finally saved, with the completed message |
| PaymentService.SelfPaymentLeavesBalance | api/app/Services/PaymentService.php:14-68 | a payment to the payer's own email leaves their balance where it started |
| PaymentService.PaymentService.CompletePayment | api/app/Services/PaymentService.php:42-68 | the store ends exactly as `Complete` says, or, when it throws, unchanged with the fault reported |
| PaymentService.PaymentService.ProcessPayment | api/app/Services/PaymentService.php:14-40 | the store ends exactly as `Process` says, or, when any step throws, unchanged with the fault reported |
| PaymentController.StatusCode | api/app/Http/Controllers/Api/PaymentController.php:49-65 | 201 exactly for a created payment, 422 exactly for a validation failure or an insufficient balance, 500 exactly for a server error |
| PaymentController.Description | api/app/Http/Controllers/Api/PaymentController.php:56 | the stored description is the sent text, and null exactly when it was omitted or null |
| PaymentController.DescriptionAsWrittenDiffers | api/app/Http/Controllers/Api/PaymentController.php:56 | as written an omitted description is an undefined-key error; on every other input the corrected reading agrees |
| PaymentController.PendingRow | api/app/Http/Controllers/Api/PaymentController.php:53-58 | the new row has the next id, the caller as owner, the validated amount, recipient and description, no currency, and status `pending` |
| PaymentController.WithPending | api/app/Http/Controllers/Api/PaymentController.php:53-58 | the pending row is appended, the tables stay well formed, and users, entries and events are untouched |
| PaymentController.StoreResponses | api/app/Http/Controllers/Api/PaymentController.php:42-67 | 422 with exactly the failing fields iff validation fails; 422 insufficient iff the balance is below the amount; never 500 once corrected; any response other than 201 leaves every table unchanged |
| PaymentController.StoreCreates | api/app/Http/Controllers/Api/PaymentController.php:53-65 | a 201 carries the next row, owned by the caller with the validated fields, now `completed`, and it is the only new payment |
| PaymentController.StoreNeverOverdraws | api/app/Http/Controllers/Api/PaymentController.php:49-51 | a caller whose balance was not negative never ends negative, whatever the request; every other balance only grows |
| PaymentController.StoreExactBalance | api/app/Http/Controllers/Api/PaymentController.php:49 | a balance equal to the amount passes the guard, and after an external payment the payer's balance is 0 |
| PaymentController.StoreReconciles | api/app/Http/Controllers/Api/PaymentController.php:42-67 | `store` keeps the tables well formed and every balance equal to the net of its owner's entries |
| PaymentController.StoreAsWrittenNeverCreates | api/app/Http/Controllers/Api/PaymentController.php:42-67 | as written, and with only the relation corrected, no payment is ever created: a valid, covered request answers 500 and every table is unchanged |
| PaymentController.Latest | api/app/Http/Controllers/Api/PaymentController.php:25 | the same payments in reverse table order |
| PaymentController.CurrentPage | api/app/Http/Controllers/Api/PaymentController.php:25 | a page number below 1 reads as page 1; other pages are kept |
| PaymentController.IndexOwnedOnly | api/app/Http/Controllers/Api/PaymentController.php:23-28 | a page holds at most 15 payments, all of them the caller's |
| PaymentController.PaymentsOfIncreasing | api/app/Models/User.php:70-73 | selecting a user's payments keeps ids increasing |
| PaymentController.IndexNewestFirst | api/app/Http/Controllers/Api/PaymentController.php:25 | on every page ids strictly decrease, newest first |
| PaymentController.IndexCovers | api/app/Http/Controllers/Api/PaymentController.php:25 | the k-th newest of the caller's payments is entry k mod 15 of page k div 15 + 1 |
| PaymentController.Show | api/app/Http/Controllers/Api/PaymentController.php:30-33 | 404 exactly when no payment has the id; otherwise that payment with its customer |
| PaymentController.PaymentController.constructor | api/app/Http/Controllers/Api/PaymentController.php:18-21 | the controller keeps the service it is given |
| PaymentController.PaymentController.Store | api/app/Http/Controllers/Api/PaymentController.php:42-67 | the response and the new tables are exactly those of `Stored` for the service's payer relation and the ledger's status column |
| WebSocket.Without | app/lib/websocket.ts:192 | removing a callback keeps exactly the other callbacks |
| WebSocket.SubscribeKeepsValid | app/lib/websocket.ts:181-186 | `on` keeps every set non-empty and free of repeats |
| WebSocket.SubscribeRegisters | app/lib/websocket.ts:181-186 | after `on(e, cb)`, `e`'s callbacks are the old ones in order plus `cb`, other events are untouched and `e` has an entry |
| WebSocket.SubscribeIdempotent | app/lib/websocket.ts:186 | registering the same callback twice stores it once |
| WebSocket.UnsubscribeRemoves | app/lib/websocket.ts:189-197 | `cb` leaves `e` and every other callback stays; `e` keeps an entry iff a callback remains; other events are untouched; no set is empty |
| WebSocket.UnsubscribeIdempotent | app/lib/websocket.ts:189-197 | calling the unsubscribe closure twice is the same as once |
| WebSocket.SubscribeThenUnsubscribe | app/lib/websocket.ts:181-197 | registering a new callback and then unsubscribing it restores the registry exactly |
| WebSocket.Route | app/lib/websocket.ts:157-179 | the three control events emit nothing; the two wire names map to `paymentStatusChanged` and `balanceUpdated`; every other event keeps its name |
| WebSocket.BackoffDoubles | app/lib/websocket.ts:113-115 | each attempt waits twice as long as the one before |
| WebSocket.OnCloseStep | app/lib/websocket.ts:80-82 | a reconnect is scheduled exactly on an unclean close with fewer than 5 attempts, counting one more attempt and waiting 1000·2^(attempts−1) ms |
| WebSocket.UncleanClosesSchedule | app/lib/websocket.ts:80-115 | in a run of unclean closes the k-th schedules a reconnect exactly while fewer than 5 attempts precede it, after the backoff of that attempt |
| WebSocket.BackoffFromFresh | app/lib/websocket.ts:26-28 | from a fresh connection the delays are 1000, 2000, 4000, 8000 and 16000 ms, then none |
| WebSocket.StateName | app/lib/websocket.ts:211-226 | no socket and CLOSED read `disconnected`, CONNECTING `connecting`, OPEN `connected`, CLOSING `closing`, anything else `unknown` |
| WebSocket.WebSocketClient.constructor | app/lib/websocket.ts:24-35 | a new client has no listeners, no attempts, no socket and has sent nothing |
| WebSocket.WebSocketClient.On | app/lib/websocket.ts:181-187 | the registry becomes `Subscribed` and stays valid; nothing else changes |
| WebSocket.WebSocketClient.Unsubscribe | app/lib/websocket.ts:189-197 | the registry becomes `Unsubscribed` and stays valid; nothing else changes |
| WebSocket.WebSocketClient.Emit | app/lib/websocket.ts:200-205 | each callback registered for the event is invoked exactly once, and none when it has no entry |
| WebSocket.WebSocketClient.HandleMessage | app/lib/websocket.ts:157-179 | control events invoke nothing; any other message invokes each listener of its routed name once |
| WebSocket.WebSocketClient.Send | app/lib/websocket.ts:151-155 | a frame is transmitted exactly when the socket is open |
| WebSocket.WebSocketClient.OnOpen | app/lib/websocket.ts:53-65 | attempts reset to 0; the client announces itself and subscribes to `customer.<id>` and `payments.<id>`, in that order |
| WebSocket.WebSocketClient.OnClose | app/lib/websocket.ts:76-83 | the counter and the scheduled delay follow `OnCloseStep`; attempts never exceed 5 |
| WebSocket.WebSocketClient.ScheduleReconnect | app/lib/websocket.ts:113-126 | one more attempt, with delay 1000·2^(attempts−1) |
| PaymentBalanceCard.EntryFor | app/components/dashboard/payment-balance-card.tsx:61-69 | a credit exactly for a positive change; the amount is the change's magnitude; the status is `completed` |
| PaymentBalanceCard.Prepend | app/components/dashboard/payment-balance-card.tsx:71 | the new entry first, then the old entries in order, at most 5 in all |
| PaymentBalanceCard.ReplayBounded | app/components/dashboard/payment-balance-card.tsx:71 | after any series of updates the list holds at most 5 entries |
| PaymentBalanceCard.ReplayNewestFirst | app/components/dashboard/payment-balance-card.tsx:60-72 | after any series of updates the i-th entry, for i below 5, is the i-th newest update |
| PaymentBalanceCard.Bucket | app/components/dashboard/payment-balance-card.tsx:199-207 | none below one minute; otherwise minutes below 60, hours below 1440, days beyond, counted rounded down in that unit |
| PaymentBalanceCard.FormatRelativeTimeDistinguishes | app/components/dashboard/payment-balance-card.tsx:199-207 | two times get the same label exactly when they fall in the same bucket |
| PaymentBalanceCard.IconAndColorDistinguishKinds | app/components/dashboard/payment-balance-card.tsx:209-215 | the icon and the colour each tell a credit from a debit |
| PaymentBalanceCard.BalanceCard.constructor | app/components/dashboard/payment-balance-card.tsx:30-38 | the card starts at balance 0, with no activity, no error and loading |
| PaymentBalanceCard.BalanceCard.OnBalanceUpdate | app/components/dashboard/payment-balance-card.tsx:42-73 | balance and previous come from the event; the indicator shows the difference only when nonzero; a nonzero change prepends its entry, and a zero change leaves the list alone |
| PaymentBalanceCard.BalanceCard.ClearChangeIndicator | app/components/dashboard/payment-balance-card.tsx:50 | the change indicator is cleared |
| PaymentBalanceCard.BalanceCard.FetchBalance | app/components/dashboard/payment-balance-card.tsx:78-117 | no token changes nothing; a failure records the error and keeps balance, change indicator and list; a success makes the old balance the previous one and replaces the list; loading ends either way |
| PaymentBalanceCard.BalanceCard.FetchTransactions | app/components/dashboard/payment-balance-card.tsx:119-137 | a successful answer replaces the list, and an empty answer empties it |
| PaymentFlowCard.ValidIff | app/components/dashboard/payment-flow-card.tsx:108-129 | no errors iff the amount is present and, when numeric, within 0 < amount ≤ $10,000, the type is set and the description has at most 255 characters; a non-numeric amount passes |
| PaymentFlowCard.AmountMessageChoice | app/components/dashboard/payment-flow-card.tsx:111-117 | the "cannot exceed" message appears exactly above $10,000, overriding "greater than 0" |
| PaymentFlowCard.Transition | app/components/dashboard/payment-flow-card.tsx:56-89 | exactly processing, completed and failed move the card, to a progress within 0..100 |
| PaymentFlowCard.TransitionTable | app/components/dashboard/payment-flow-card.tsx:271 | processing keeps the card busy at 70; completed settles it at 100 and failed at 0, and only those schedule a reset; pending and refunded are ignored |
| PaymentFlowCard.ShownPayment | app/components/dashboard/payment-flow-card.tsx:180-188 | the shown payment carries the response's id and is processing |
| PaymentFlowCard.FlowCard.constructor | app/components/dashboard/payment-flow-card.tsx:38-48 | the card starts idle at progress 0 with the default form and no payment |
| PaymentFlowCard.FlowCard.ValidateForm | app/components/dashboard/payment-flow-card.tsx:108-129 | the errors are exactly `ExpectedErrors`, and the form is valid iff there are none |
| PaymentFlowCard.FlowCard.ResetForm | app/components/dashboard/payment-flow-card.tsx:96-106 | status idle, progress 0, no payment data, the default form with type `payment` |
| PaymentFlowCard.FlowCard.OnResetTimer | app/components/dashboard/payment-flow-card.tsx:73-76 | the current payment is forgotten and the form reset |
| PaymentFlowCard.FlowCard.OnPaymentStatus | app/components/dashboard/payment-flow-card.tsx:50-94 | an event for another payment, or with no current payment, changes nothing; otherwise status, progress and reset delay follow `Transition`, a completion marks the shown payment a success with the event's transaction id and keeps its id, amount, description and type (all undefined when none was shown), and any other status keeps the shown payment; progress stays within 0..100 |
| PaymentFlowCard.FlowCard.SubmitWithToken | app/components/dashboard/payment-flow-card.tsx:131-238 | an invalid form changes only the errors; a failed or payment-less answer fails the card, keeps the shown payment and schedules a reset after 5 s; otherwise the card waits at 90% on the returned payment |
| Delivery.BalanceUpdatesRouted | app/lib/websocket.ts:173-175 | the server's `balance.updated` reaches the client's `balanceUpdated` listeners |
| Delivery.StatusUpdatesNotRouted | app/lib/websocket.ts:170-177 | the server's `payment.status.updated` is re-emitted under its own name, never as `paymentStatusChanged` |
| Delivery.ClientSubscribesToOwnBalanceChannel | app/lib/websocket.ts:61 | a balance update for a user goes to `customer.<user id>`, the client's first subscription |
| Delivery.ClientNeverSubscribesToStatusChannel | app/lib/websocket.ts:62 | the client's `payments.<id>` subscription is never the `payment.<payment id>` channel of any status update |
| Delivery.EntryShownForUpdate | app/components/dashboard/payment-balance-card.tsx:44-71 | were the payload decoded, the card would take its balance, and a server debit of a positive amount would show as a "Payment processed" debit of that amount and a credit as a "Payment received" credit of that amount |
| Delivery.EncodedUpdateShownAsDebit | app/lib/websocket.ts:67-71 | as the client hands on the still-encoded data, the card's balance becomes undefined and every update, a credit included, adds a "Payment processed" debit whose amount is not a number, where a decoded credit would show as a credit |

## Left out

- Persistence, the queue and broadcasting transport are framework services. The ledger is an in-memory store. A database transaction is a snapshot restored on failure. Broadcasting is an appended event log. Queued broadcasting re-reads models when it sends (`SerializesModels`); the model broadcasts the values at dispatch.
- `PaymentController::destroy` is not modelled: the API routes only `index`, `store` and `show`.
- Concurrency between requests and row locking are not modelled. Each request runs alone.
- `latest()` orders by creation time. The model orders by id. The two agree when creation times increase with id; rows created within the same second have no fixed order in the database.
- The request middleware that trims strings and turns empty strings into null is not modelled. The `required` rule refuses text that is empty once trimmed, but a valid recipient is kept untrimmed.
- CreatePaymentRequest.Validate: a numeric string is accepted only as digits, optionally followed by a point and one or two digits. PHP's other numeric forms (a sign, an exponent, a leading or trailing point, surrounding whitespace, more than two decimals) are refused by the model, although `numeric` accepts them.
- Users.FindByEmail: the recipient lookup compares emails exactly. The database compares them under its collation, which under MySQL's default ignores case, so an email differing only in case finds a user there and not in the model.
- PaymentService.ProcessEntries: the credit text uses the payer's `name`. The `User` model declares no `name` attribute and the users migration is not part of this model. If the column does not exist, `name` reads as null and the text is "Payment from "; the lemmas hold for any name, the empty one included.
- `Database.Ledger.Restore` also rolls back the event log. Laravel does not withdraw dispatched events, but in the modelled flows every throw comes before the first dispatch in its transaction.
- `Numerals.ParseInt`: a route parameter is an `int` only when it is an optional minus sign followed by digits. PHP's other numeric-string forms (leading whitespace, `+`, exponents) are not accepted.
- `Channels.MatchParameter`: a channel parameter is taken to contain no dot.
- The `decimal(15,2)` column width is not enforced: amounts and balances are unbounded integers.
- The validator's `numeric` rule and the service's `float` parameter are taken on exact cents. Fractions of a cent and floating-point rounding are not modelled.
- String lengths are counted in characters. PHP's multibyte length and JavaScript's UTF-16 length are not distinguished.
- The client's connection lifecycle is not modelled: `connect`, `disconnect`, authentication headers, the 30-second heartbeat, timers and `JSON.parse` failures. A message is modelled by its event name; its data is not modelled.
- `WebSocket.WebSocketClient.Emit`: a callback that changes the registry while it is being emitted is not modelled.
- `PaymentBalanceCard`: entry ids and timestamps, `lastUpdated`, currency and time formatting (`Intl.NumberFormat`, `toLocaleTimeString`) are not modelled. The development mock data and the 3-second timer's scheduling are not modelled either; only its effect is (`ClearChangeIndicator`).
- `PaymentFlowCard`: the status message text and the mock submission branch (random success, `Date.now` ids) are not modelled. Nor are the submit payload sent to the API, the 500 ms delay, or React's deferred and batched state updates.
- The websocket provider and hook, the auth helper, the JSON resources, the pages and the seeders/factories are not part of this model. `PaymentResource` is not part of this model, so the shape of the `store` response body is taken as the client reads it.
- Authorisation of `show`: the controller returns any payment by id without checking its owner, and the model states exactly that.

## Findings

| source | as written | input that shows it | evidently intended | confidence | as-written member | corrected member |
|---|---|---|---|---|---|---|
| api/app/Services/PaymentService.php:18 | the payer is read as `$payment->user`, but a payment declares only the `customer` relation, so it reads as null and the call throws; `store` rolls back and answers 500 | any valid request from a user whose balance covers the amount | read the payer through `$payment->customer` | high, not executed | PaymentService.ProcessAsWrittenThrows | PaymentService.ProcessSucceeds |
| api/app/Services/PaymentService.php:30 | the service saves `processing` and `completed`, which the payments table's status enum (pending, successful, failed, refunded) refuses | any payment, once the payer relation is corrected | an enum (or declared status list) that includes the statuses the service writes | medium (depends on the database enforcing the enum), not executed | PaymentService.ProcessColumnAsWrittenThrows | PaymentService.StatusColumnAccepts |
| api/routes/channels.php:15 | the payment channel compares `$payment->user_id`, which payments do not have, so even the owner is refused | user 1 asking for `payment.1` where payment 1 has customer 1 | compare `$payment->customer_id` | high, not executed | Channels.PaymentChannelAsWrittenDeniesOwner | Channels.PaymentChannelOwnerOnly |
| api/app/Events/BalanceUpdated.php:21 | balance and status updates are broadcast on public channels, so the channel callbacks are never consulted and any client can listen to any user's balance | user 2 listening on `customer.1` | private channels, so the callbacks gate them | high, not executed | Channels.BalanceBroadcastReachesEveryone | Channels.PrivateBalanceChannelOwnerOnly |
| api/app/Http/Controllers/Api/PaymentController.php:56 | `$data['description']` is read although validated data omits a nullable field that was not sent, an undefined-key error | a request with amount, recipient and no description key | store null for an omitted description | medium, not executed | PaymentController.DescriptionAsWrittenDiffers | PaymentController.Description |

Two further mismatches sit between the server and the client. Neither is a wrong line on its own, so neither has a corrected member:

- The server names status updates `payment.status.updated`, while the client routes `payment.status.changed` (`Delivery.StatusUpdatesNotRouted`).
- The client subscribes to `payments.<customer id>`, while status updates go to `payment.<payment id>` (`Delivery.ClientNeverSubscribesToStatusChannel`).

As a result the payment card's status listener is never invoked by the server.

On the Pusher protocol, which Reverb speaks, a channel event's `data` is its payload encoded as a JSON string. The client parses each frame once and hands `data` on still encoded (`app/lib/websocket.ts:69` and `158-175`), so the balance card reads `balance` and `change` off a string. Its balance becomes undefined and each update adds a "Payment processed" debit whose amount is not a number (`Delivery.EncodedUpdateShownAsDebit`). Even decoded, the payload carries no `previous_balance`. The client validates descriptions up to 255 characters where the server allows 150, and it sends a `currency` that `store` does not store (`PaymentController.PendingRow`).
