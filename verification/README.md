# Verification of the money pipeline and its neighbours

The system sells VPN plans. An order is created for a user, paid through Alipay, WeChat or USDT, and settled once a
payment for it is verified; settling applies a plan, a data pack or a top-up to the user. Orders, payments, leased USDT
addresses, coupons and users are separate tables changed by separate repository calls, driven by webhooks, polls, an
on-chain scanner and two expiry sweeps that may all run at once. The same system renders server and client
configurations from one node table, counts traffic, and bans users.

**The interleaved machine** (`Tables`, `Machine`). Every handler is a thread with a program counter; one step is one
repository call with the guard of its WHERE clause, and a call may succeed, fail, or take effect although an error came
back. The clock is a shared integer that never goes back. On top of it:

- `Ttl`: settling only through paid payments, and the exact condition on the two lifetimes;
- `Idempotency`: one order per user and key under any interleaving;
- `Addresses`, `Routing`: USDT addresses, conservation of the pool, and the exact condition under which a transfer
  settles only the order its address is leased to;
- `Effects`, `Settlement`: single effects, each after the one step that paid its order, and matching amounts;
- `Stamps`, `PaymentOrder`: when effects are applied and when their orders were paid;
- `Accounting`, `Entitlement`: users as the replay of paid orders, balances, quotas, expiries and coupon counters;
- `Overlaps`: runs in which overlapping handlers credit twice, cancel a finished order or invert two plans, and exactly
  which deployments are free of them;
- `TradeIndex`, `Waiting`: the unique index on channel and trade number, the channels it closes and the addresses it loses;
- `Settling`, `OnePaid`: what notifies and transfers can still settle from any state, and exactly when two payments of one
  order can both be paid;
- `Delivery`: from a transfer the scanner hands over to the order it pays, and when it never gets there;
- `Origins`: orders and payments as the calls that stored them asked, up to the cents a coupon leaves;
- `Growth`, `Scenario`: what every step keeps, and the opening of the counterexample runs.

**The services as code** (`Alone`, `Services`, `Shop`). Billing and payment handlers as methods of classes over a database
object, each proved to do what its thread does when it runs alone, and to leave the rows `Alone` describes field by field;
`Shop` serves any list of calls and states what then holds of the tables themselves.

**Amounts** (`Decimal`, `Amounts`, `Pricing`, `UsdtAmount`). Rational numbers as `real`, texts as strings, 64-bit
wrap-around written out.

**Around the core**: `Scanner` (block ranges and the cursor), `Nodes`, `ServerConfig`, `ClientConfig`,
`ConfigAgreement`, `ConfigFields` (two server and three client compilers of one node table), `Agent` (the pull loop), `Traffic` (usage,
bans and the ban cache), `SubIp` (the sliding window of addresses), `JsonString` (the audit log's string printer).

Run `dafny verify dfyconfig.toml` in this directory.

## Words used in the statements

- *fault-free*: every call succeeds. *Serial* (`Effects.Serial`): a handler working on an order runs to its end before
  another one touches that order. *PaidSerial* is the weaker discipline that only HandlePaid calls on one order do not
  overlap. *UserSerial* (`Stamps.UserSerial`): HandlePaid calls on orders of one user do not overlap. *Settled*: no handler
  stands between a status write and its coupon and effect writes.
- A thread *through* a payment came from a verified notify, a reconcile or a transfer; a *direct* one is the mock payment.
- `Config.txTo` gives the set of addresses each transaction pays; `Routing.OneAddressEach` says no transaction pays two,
  which is how distinct transaction hashes per transfer are stated.
- A replay goes through the log of effects, oldest first, and uses the instant of crediting. Under *Serial* that log is
  sorted and no entry precedes its order's payment; under *UserSerial* as well each user's part is in payment order.

## Where code and comments part

The model follows the code in each case.

- `internal/payment/domain/payment.go:4` says only one payment of an order may reach paid; nothing enforces it, across
  channels or on one (`OnePaid.OnePaidIff`, `OnePaid.BothAttemptsPaid`). What is single is the order's effects.
- `internal/migrations/000002_payment.up.sql:9` lets the trade number be NULL, so that many payments may wait for theirs; the
  repository stores an empty text, and the unique index then admits one per channel (`Waiting.ClosedIff`).
- `internal/payment/service/service.go:205-206` says expired payments release their address; nothing does
  (`Addresses.LeasesAreForEver`, `Waiting.RefusedInsertLosesAddress`).
- HandleNotify is called idempotent, and a paid payment is a no-op even when its order was never settled
  (`Delivery.PaidIsFinal`).
- `internal/traffic/service/service.go:40` says the resolver wins when an item carries both a token and a user id; the
  code uses a non-zero user id first.
- HandlePaid is called idempotent, but `UpdateStatus` has no guard on the present status, so single effects need
  serialized handlers (`Overlaps.OverlappingCallsCreditTwice`), and so does a paid order's status
  (`Overlaps.PaidThenCancelled`). Plans are applied as paid only when one user's calls do not overlap either
  (`Overlaps.PlansInverted`).
- The scanner starts from the tip when no cursor is stored, but then finds nothing to scan and stores nothing
  (`Scanner.StuckAtZero`).
- `internal/traffic/service/service.go:120-122` says the recompute task rebuilds the ban cache; the worker that runs it is
  wired without the cache (`Traffic.RoundKeepsCacheIff`).
- `internal/billing/service/service.go:330` says the order sweep cancels; the repository writes expired.
- An item for an unknown user id is accepted although no row is charged (`Traffic.OnlyOwnerlessRejected`), and an item whose
  increment failed is rejected although its event still goes to the sink (`Traffic.SinkAgreesIff`).

## Model

| member | source | states |
|---|---|---|
| Ttl.PayableMeansPaid | internal/payment/service/service.go:133-161 | When HandlePaid, reached through a payment, finds its order payable, that payment row is already paid: the strict payable test leaves no instant at which the expiry sweep could have taken it |
| Ttl.SettledThroughPaidPayment | internal/payment/infra/gormrepo/repo.go:155-181 | With payments living at least as long as orders, over every interleaving of single repository calls with any failures: the payment an order was settled through exists, belongs to that order, and is paid then and for ever after |
| Ttl.RunFits | internal/payment/service/service.go:55-100 | The invariant behind it on every run: each pending order's deadline is no later than those of its live payments, which are minted after it, and every thread in flight remembers deadlines the tables confirm |
| Ttl.LateNotify | internal/payment/service/service.go:19 | With payments shorter-lived than orders, a run in which a late notify settles an order through an expired payment |
| Ttl.HonestIffCoupled | internal/billing/service/service.go:281-303 | No run ever settles an order through an unpaid payment if and only if payments live at least as long as orders (or no order can become payable at all) |
| Ttl.SourceTtlsAreCoupled | internal/payment/service/service.go:17-19 | Both lifetimes are fifteen minutes in the services, so no run of theirs settles an order through an unpaid payment |
| Ttl.SourceHonestIffCoupled | internal/billing/service/service.go:22 | The same for the amount functions the services use |
| Idempotency.AtMostOneOrderPerKey | internal/billing/infra/gormrepo/repo.go:369-397 | Over every interleaving, with lookup errors swallowed and inserts that fail before or after taking effect, two orders with one user and key are the same order |
| Idempotency.CallsAgree | internal/billing/service/service.go:144-221 | Any two CreateOrder calls for one user and key that return an order, at any two points of the run, return the same one, and it is that user's order under that key |
| Addresses.AddressesNeverShared | internal/payment/infra/gormrepo/repo.go:251-277 | Over every run no two USDT payments carry the same address |
| Addresses.PoolIsConserved | internal/payment/infra/gormrepo/repo.go:290-307 | Free, allocated and used addresses always add up to the number of distinct addresses ever seeded |
| Addresses.LeasesAreForEver | internal/payment/infra/gormrepo/repo.go:251-307 | From any reachable state on, a used address stays used and a leased one keeps its order |
| Routing.TransferSettlesItsLease | internal/payment/service/service.go:133-161 | When each transaction pays one address, over every interleaving with any failures, a transfer settles an order only if the address it paid to was leased to that order and to no other, even when a newer attempt of the order is the payment credited |
| Routing.SharedTransactionMisroutes | internal/payment/service/service.go:133-140 | For any transaction that pays two addresses, a run from the empty tables the unique index admits: the transaction is noted on the first order's payment but marking it paid fails, the second order's payment is stored, and the transfer to its address then settles the first order |
| Routing.OnLeaseIff | internal/payment/service/service.go:216-232 | Every transfer on every run settles only the order its own address is leased to if and only if no transaction pays two addresses, or nothing can be settled at all: payments dead when minted, orders never payable, or no users |
| Routing.SourceOnLeaseIff | internal/payment/service/service.go:245-248 | The same for the amount functions the services use |
| Effects.EffectsAtMostOnce | internal/billing/service/service.go:281-326 | However many of an order's payments are verified and whatever calls fail, its effects are applied at most once on every run in which HandlePaid calls on one order do not overlap |
| Effects.EffectsFollowTheirPaidStep | internal/billing/service/service.go:261-326 | On every run with serialized handlers and any failures effects are applied at most once, only to orders that are paid, and each by the thread whose step is the one step of the whole run that took the order from pending to paid |
| Effects.PaysAtMostOnce | internal/billing/infra/gormrepo/repo.go:460-469 | No order is taken from pending to paid by two steps of a run, whatever interleaves and fails |
| Effects.FinishedOrdersStay | internal/billing/infra/gormrepo/repo.go:460-476 | Paid, cancelled and expired orders never change status again when handlers on one order do not overlap, with any failures |
| Overlaps.OverlappingCallsCreditTwice | internal/billing/infra/gormrepo/repo.go:460-469 | Without that discipline the unguarded status write lets two overlapping calls credit a top-up twice although every call succeeds |
| Overlaps.PaidThenCancelled | internal/billing/service/service.go:261-273 | A run on which a CancelOrder call that overlaps one HandlePaid call turns the paid order cancelled although every call succeeds |
| OnePaid.OnePaidIff | internal/payment/domain/payment.go:1-4 | On every run each order has at most one paid payment if and only if there are no users at all: no choice of lifetimes makes up for the missing guard |
| OnePaid.SourceOnePaidIff | internal/payment/service/service.go:245-248 | The same for the amount functions the services use |
| OnePaid.OnePaidIfAlone | internal/payment/service/service.go:55-100 | If every payment, when stored, finds all others of its order marked expired, then whatever interleaves and fails at most one payment of an order is ever paid |
| OnePaid.TwoCanBePaid | internal/payment/service/service.go:118-161 | From any reachable state two payments of one order can both still be paid when each is paid, or pending and to be found: by its trade number, by its order before the deadline, or by a transfer to its address |
| OnePaid.TwoCanBePaidIff | internal/payment/infra/gormrepo/repo.go:102-119 | Off the USDT channel, for payments no handler is about to write, exactly then |
| OnePaid.StoredBesideIff | internal/payment/service/service.go:64-98 | So when an attempt is stored beside another, the double payment is open exactly when the earlier one can still be found and the new one has a trade number or time left: the test the lookup by order, channel and deadline does not make |
| OnePaid.BothAttemptsPaid | internal/payment/service/service.go:64-68 | Runs on which both are paid, on any two channels notifies reach, and on the mock channel alone |
| TradeIndex.TradeNumbersDiffer | internal/migrations/000002_payment.up.sql:21 | On every run two payments of one channel have different trade numbers; the empty one counts, so each channel holds at most one payment waiting for its number |
| Waiting.WaitingRefuses | internal/payment/infra/gormrepo/repo.go:70-79 | While one waits, the insert of any other Alipay, WeChat or USDT payment stores nothing, whatever the call reports |
| Waiting.ClosedForEver | internal/payment/infra/gormrepo/repo.go:102-119 | A payment without a trade number that is no longer pending or whose deadline has come, and that no handler is about to write, closes its channel for ever: whatever is called, no payment is stored on it again |
| Waiting.ClosedIff | internal/payment/service/service.go:133-161 | For Alipay and WeChat a waiting payment closes its channel for ever exactly when it can no longer be found by its order; otherwise a notify and another attempt reopen it |
| Waiting.AbandonedAttemptCloses | internal/payment/provider/alipay/alipay.go:52-70 | A fault-free run: one attempt nobody pays in time, and the channel is closed |
| Waiting.RefusedInsertLosesAddress | internal/payment/provider/usdt/usdt.go:48-59 | While a USDT payment waits for its transaction, every other CreatePayment leases an address and then fails; from then on that address is leased to its order, on no payment, for ever |
| Waiting.AddressIsLost | internal/payment/infra/gormrepo/repo.go:250-277 | A run of two orders and two addresses that loses the second one, with nothing failing but the refused insert |
| Stamps.LogIsStamped | internal/billing/service/service.go:281-303 | On every serialized run with any failures the log of effects is sorted by the instants of crediting, and each entry's order is paid, at an instant no later than it was credited |
| Stamps.LogFollowsPayments | internal/billing/service/service.go:281-326 | Where HandlePaid calls of one user do not overlap either, that user's entries are in the order of payment: each is credited no later than the next one's order is paid |
| Overlaps.ExpiredThenCancelled | internal/billing/service/service.go:261-273 | For every pair of lifetimes a run on which the sweep expires an order whose cancellation has already read it pending, and the cancellation then writes cancelled |
| Overlaps.AtMostOnceIff | internal/billing/service/service.go:281-326 | Effects are applied at most once on every run, with no discipline at all, if and only if no order is ever payable or there are no users |
| Overlaps.FinishedIff | internal/billing/infra/gormrepo/repo.go:460-476 | Finished orders keep their status on every run if and only if there are no users |
| Overlaps.InOrderIff | internal/billing/service/service.go:281-326 | A user's orders are credited as they were paid on every fault-free run with serialized handlers if and only if no order is ever payable or there are no users |
| Overlaps.PlansInverted | internal/billing/service/service.go:281-326 | Without that second discipline, a fault-free serialized run on which a user pays two plans in one order, is credited in the other, and ends on the plan paid first |
| Growth.RunGrows | internal/payment/infra/gormrepo/repo.go:155-181 | Over every run no row disappears, no settled payment reopens, no finished order becomes pending again |
| Settlement.PaidMatchesNotified | internal/payment/service/service.go:133-161 | An order settled through a notify is recorded as paid with its payable amount, and the notified amount passed the equality test against exactly that text |
| Settlement.PaidCentsMatchNotified | internal/payment/service/service.go:245-288 | In the services' own cents the recorded and the notified amounts are the same 64-bit number |
| Accounting.UsersAreReplayOfPaidOrders | internal/user/infra/gormrepo/billing_apply.go:21-81 | At any settled point of a fault-free run with serialized handlers, users equal the replay of plan, pack and top-up effects over the paid orders, each once and no others, sorted by the instants of crediting and none before its order was paid; every paid order records its payable amount |
| Accounting.UsersAreReplayDespiteFailures | internal/user/infra/gormrepo/billing_apply.go:21-81 | At any point of any serialized run, with any failures, users equal the replay of a log of distinct paid orders with those same stamps: nothing is credited twice or unpaid |
| PaymentOrder.UserIsFoldInPaymentOrder | internal/billing/service/service.go:305-326 | Where HandlePaid calls of one user do not overlap, at any settled point of a fault-free serialized run each user is the fold of the effects of exactly that user's paid orders, each once, every one credited before the next was paid |
| PaymentOrder.LastPlanIsLastPaid | internal/user/infra/gormrepo/billing_apply.go:21-47 | Under that discipline, even with failing calls, no plan credited to a user so far was paid later than the one the user holds |
| Accounting.BalanceIsTopups | internal/user/infra/gormrepo/billing_apply.go:71-81 | Replaying effects moves a balance by the payable cents of credited top-ups and by nothing else |
| Accounting.BalancesAddUp | internal/billing/service/service.go:305-326 | So after every such run each balance is the opening balance plus those cents |
| Accounting.RenewalsStack | internal/user/infra/gormrepo/billing_apply.go:21-47 | Renewing the same plan before it runs out adds the days bought whatever the instants of the purchases |
| Accounting.QuotaNeverExceeded | internal/billing/infra/gormrepo/repo.go:223-234 | No interleaving and no failure takes a coupon's counter over a positive quota |
| Accounting.CounterCountsPaidOrders | internal/billing/service/service.go:281-303 | At any settled point of a fault-free serialized run a counter that began at 0 equals the number of paid orders carrying the coupon, capped by a positive quota |
| Entitlement.QuotaIsLastPlanAndPacks | internal/user/infra/gormrepo/billing_apply.go:21-69 | Replaying effects leaves a user the last plan bought, its device limit, a fresh usage count, and as quota that plan's bytes and those of every pack bought after it |
| Entitlement.ExpiryIsLatest | internal/user/infra/gormrepo/billing_apply.go:28-67 | For a user who keeps one plan, whatever the instants, the expiry is the latest of the opening one with all days added and each purchase's instant with the days bought from it on: no paid day is lost and none is given away |
| Entitlement.ExpiryFollowsSwitches | internal/user/infra/gormrepo/billing_apply.go:21-67 | For every user and every log: a plan other than the one held sets the expiry to its own instant and days whatever was left of the old one, every other purchase extends the later of the expiry and its own instant; so the expiry is the latest that the purchases since the last change of plan account for |
| Entitlement.EntitlementsAddUp | internal/billing/service/service.go:305-326 | All three hold of the user table at any point of a fault-free run with serialized handlers |
| Alone.SoloIsRun | internal/billing/service/service.go:281-326 | A handler run without interruption is a run of the interleaved machine |
| Shop.Shop.ServeAll | internal/billing/service/service.go:261-337 | Any list of orders, payments, webhooks, transfers, reconciliations, mock payments, cancellations and sweeps served one after the other, with any repository call failing: users are the replay of distinct paid orders, and finished orders keep their status |
| Services.Billing.HandlePaid | internal/billing/service/service.go:281-303 | Leaves the tables and reports failure exactly as its thread running alone does, for every pattern of failing calls; an order already paid is a success that changes nothing, one that cannot be read or paid a failure that changes nothing, and when every call works the order, its coupon and its user hold, field by field, what a settled order means |
| Services.Billing.ApplyOrderEffects | internal/billing/service/service.go:305-326 | Plan, pack or top-up given to the order's user, field by field in arithmetic, a plan's days stacking only on the same plan; failure when the user is missing |
| Services.Billing.CreateOrder | internal/billing/service/service.go:144-221 | Returns the existing order, the inserted one, or the one a refetch finds; otherwise nothing. A new order holds the request's user, key, item, amount, discount and coupon, is pending with its deadline one lifetime ahead, and nothing else changes |
| Services.Billing.CancelOrder | internal/billing/service/service.go:261-273 | Cancels exactly one order, pending and its owner's, and changes nothing else, or reports a failure that changed nothing |
| Services.Billing.AutoCancelExpired | internal/billing/service/service.go:332-337 | Expires exactly the pending orders past their deadline, or reports a failure that changed nothing |
| Services.Payments.CreatePayment | internal/payment/service/service.go:55-100 | Gives back the newest live payment of the order and channel, otherwise stores one with the order's owner and payable amount, the provider's tokens, a fresh deadline and, for USDT, the first free address leased to the order; nothing else changes |
| Services.Payments.ApplyVerified | internal/payment/service/service.go:133-161 | Finds the payment by trade number, then by order; notes the trade number; refuses a differing amount; marks paid, retires the address, settles the order |
| Services.Payments.HandleNotify | internal/payment/service/service.go:118-131 | A notify that fails verification or is not a success changes nothing. A verified one is for the payment that bears its number, or else the newest live attempt of its order: already paid it is a success that changes nothing, of another amount a failure that notes the number only, and when every call works the payment is paid, its address retired and its order settled |
| Services.Payments.ReconcileChannel | internal/payment/service/service.go:166-203 | Polls the listed pending payments in order and applies each one the provider reports paid |
| Alone.ListsNewest | internal/payment/infra/gormrepo/repo.go:183-197 | A reconciliation lists the newest pending payments of the channel that have a trade number, newest first, all of them if the limit allows |
| Services.PollGoesThrough | internal/payment/service/service.go:178-203 | Every listed row is polled in order: one not called paid changes and counts nothing, one called paid is applied to what the rows before it left and counts if that succeeds |
| Origins.OrdersAsRequested | internal/billing/service/service.go:188-205 | On every run every order comes from a CreateOrder call of that run and keeps its user, key, item, amount, discount and coupon |
| Origins.PaymentsAsRequested | internal/payment/service/service.go:60-98 | On every run every payment comes from a CreatePayment call of that run: its order and channel, the provider's tokens, the order's owner and payable amount |
| Origins.PaymentAsksQuoted | internal/billing/service/service.go:185-251 | With the services' texts, on every run: a payment of an order placed with a quoted coupon asks for the amount to the nearest cent less what the coupon takes off to the nearest cent, and a top-up adds just that |
| Origins.PaymentAsksFull | internal/billing/service/service.go:185-251 | Without a coupon it asks for the price to the nearest cent |
| Services.Payments.UsdtReceived | internal/payment/service/service.go:216-232 | Is handled as a notify for the newest pending USDT payment at its address whose tokens equal the amount it names; with no such payment it fails and changes nothing |
| Services.Payments.ExpireOldPending | internal/payment/service/service.go:205-210 | Expires exactly the pending payments whose deadline has come, or reports a failure that changed nothing |
| Decimal.FloatStringRounds | internal/billing/service/service.go:50-54 | The integer-part, scaled-remainder and carry printer writes the nearest multiple, halves away from zero |
| Decimal.ParseFloatString | internal/billing/service/service.go:36-50 | Reading a printed number gives the number rounded, with its sign |
| Amounts.Cents | internal/payment/service/service.go:250-288 | The cents loop with 64-bit wrap-around and byte arithmetic computes the exact cents of the text modulo 2^64 |
| Amounts.CentsOfPrinted | internal/payment/service/service.go:250-288 | On every two-decimal text it inverts the printer |
| Amounts.AmountEqOnPrinted | internal/payment/service/service.go:245-248 | The amount test on printed amounts is equality of cents, modulo 2^64 and nothing else |
| Amounts.CnyToCents | internal/payment/provider/wechat/wechat.go:167-184 | The WeChat parser's split, padding and clamped integer reads, on every text |
| Amounts.WechatTextRoundTrip | internal/payment/provider/wechat/wechat.go:167-193 | WeChat cents printed and read back are the same exactly for non-negative cents and whole negative amounts |
| Amounts.WechatAcceptsOwnTotal | internal/payment/provider/wechat/wechat.go:87-134 | The echoed total is accepted exactly when it equals the requested cents; the one exception is named: a total between -99 and -1 printed without its sign |
| Pricing.SourceTextIsFaithful | internal/billing/service/service.go:36-54 | The services' reader and printer meet the rounding laws the pricing results use |
| Pricing.QuoteCoupon | internal/billing/service/service.go:82-127 | A quote is given exactly when the coupon is found, running, unspent in total and for this user, in scope, affordable and of a known kind |
| Pricing.QuoteTakesOff | internal/billing/service/service.go:112-127 | Every quoted discount is, to the nearest cent, the coupon's value or that percentage of the amount, and never more than the amount; the final is the rest to the nearest cent |
| Pricing.RefusalNamesFirstRule | internal/billing/service/service.go:82-122 | Every refusal names the first rule that fails, in the order they are checked |
| Pricing.QuotedOrderAddsUp | internal/billing/service/service.go:103-127 | For every amount and every terms the stored discount never exceeds the stored amount, discount and payable add up to it exactly, the payable is never negative, and the quoted final is within one cent of it |
| Pricing.FinalIsPayable | internal/billing/service/service.go:185-251 | On whole-cent amounts the quoted final is the text later asked for, except exactly when a positive discount falls on half a cent |
| Pricing.HalfCentIsLost | internal/billing/service/service.go:241-251 | 25% off 0.10: the quote shows 0.08 and the order asks for 0.07 |
| UsdtAmount.TrimKeepsValue | internal/payment/provider/usdt/usdt.go:79-87 | Trimming zeros and the point keeps the value of a six-decimal text |
| UsdtAmount.TrimKeepsInteger | internal/payment/provider/usdt/usdt.go:79-87 | Trimming keeps sign and integer digits, leaves no trailing zero or point, and is never empty |
| UsdtAmount.WithinHalfMicro | internal/payment/provider/usdt/usdt.go:71-88 | For every positive rate the text denotes the quotient to within half a micro-USDT |
| UsdtAmount.UnreadableIsKept | internal/payment/provider/usdt/usdt.go:72-76 | Without a readable amount and a readable rate other than 0 the amount is taken over as it is |
| UsdtAmount.TokensDistinguishCents | internal/payment/provider/usdt/usdt.go:71-88 | All distinct cent amounts get distinct token texts if and only if the rate is at most 10000 CNY per USDT |
| Scanner.Scanner.Step | internal/payment/provider/usdt/usdt.go:126-173 | One step moves cursor and deliveries as specified for every combination of failing calls, and counts the transfers taken |
| Scanner.StepIsBounded | internal/payment/provider/usdt/usdt.go:134-173 | The cursor never goes back, a step covers only blocks right behind it, not above head less confirmations and at most one batch |
| Scanner.NothingIsSkipped | internal/payment/provider/usdt/usdt.go:126-173 | Over every sequence of heads and failures all transfers between the first cursor and the present one were handed over, repeats as often as the chain holds them |
| Scanner.ExactlyOnce | internal/payment/infra/gormrepo/repo.go:331-347 | From any state on, when no cursor write fails the deliveries are exactly the transfers of the blocks passed meanwhile, once each and in order |
| Delivery.TransferCreditsIff | internal/payment/service/service.go:216-232 | A transfer under a transaction not noted yet, handled without interruption, is credited exactly when it finds an active attempt of a payable order with an agreeing amount, the lookups, the payment mark and the status write report no error, and the effects take; noting the transaction, retiring the address and the coupon may fail |
| Delivery.TransferCreditsExpected | internal/payment/infra/gormrepo/repo.go:137-151 | A transfer that names an amount credits at most one order: that of the newest pending USDT payment at its address for exactly that many tokens |
| Alone.UnexpectedTransferFails | internal/payment/service/service.go:216-219 | A transfer no pending payment expects fails and changes nothing, whatever its transaction and whatever calls fail |
| Delivery.NeverCreditedIff | internal/payment/provider/usdt/usdt.go:161-171 | When no cursor write fails, each transfer behind the cursor was handed over once and never will be again, so it is never credited exactly when that one hand-over did not go through |
| Delivery.PaidIsFinal | internal/payment/service/service.go:145-160 | Once a payment is marked paid and no handler is on its way with it, no order is ever settled through it, whatever notifies, polls or transfers follow: a failure between the payment mark and the order's status write is not made up for |
| Delivery.PaidButUnsettled | internal/payment/service/service.go:152-160 | A run that ends there, with the order still payable |
| Scanner.CatchesUp | internal/payment/provider/usdt/usdt.go:150-160 | Under a steady head n steps bring the cursor n batches on, stopping at the tip |
| Scanner.StepsToTip | internal/payment/provider/usdt/usdt.go:150-160 | The tip is reached exactly when steps times batch cover the distance |
| Scanner.MovesIffStarted | internal/payment/provider/usdt/usdt.go:142-149 | A stored cursor can ever move if and only if it is not 0 |
| Scanner.StuckAtZero | internal/payment/provider/usdt/usdt.go:142-149 | From 0 no run moves it or hands anything over |
| Nodes.StrconvUint | internal/node/domain/node.go:128-141 | The 20-byte buffer filled backwards holds the decimal digits of every 64-bit number |
| Nodes.AllInbounds | internal/node/domain/node.go:104-126 | The primary inbound, then the declared ones with missing tags filled in |
| ServerConfig.SingBoxUsers | internal/node/service/nodecfg/singbox.go:106-125 | One user per subscriber in order, nothing for an unknown protocol |
| ServerConfig.SingBoxInboundOf | internal/node/service/nodecfg/singbox.go:65-104 | The base map edited per protocol, then the transport |
| ServerConfig.RenderSingBox | internal/node/service/nodecfg/singbox.go:20-63 | All inbounds in order, or nothing when one cannot be built |
| ServerConfig.XrayInboundOf | internal/node/service/nodecfg/render.go:68-109 | Clients per protocol, stream settings only for a decodable TLS blob |
| ServerConfig.RenderXray | internal/node/service/nodecfg/render.go:32-66 | All listeners in order, or nothing when one cannot be built |
| ServerConfig.RenderIgnoresOrder | internal/node/service/nodecfg/render.go:32-41 | With distinct subscriber ids the document is the same for every order the subscribers come in and every order an unstable sort may leave |
| ClientConfig.Expand | internal/node/service/subgen/expand.go:10-32 | Single-inbound nodes pass through, others become one view per inbound in order |
| ClientConfig.SingBoxDocument | internal/node/service/subgen/singbox.go:12-37 | The outbounds of the supported views and the selector's tags in the same order |
| ClientConfig.ClashDocument | internal/node/service/subgen/clash.go:13-35 | The same for Clash proxies and their group |
| ClientConfig.ShareLinks | internal/node/service/subgen/v2ray.go:27-36 | The same for share links |
| ConfigFields.InboundFields | internal/node/domain/node.go:104-126 | The primary inbound holds the node's own fields, every declared one its own, a missing tag naming protocol and port |
| ConfigFields.SingBoxCommonFields | internal/node/service/nodecfg/singbox.go:65-125 | Tag, port, users with names, secrets and flow, and the transport blob under its type |
| ConfigFields.SingBoxRealityFields | internal/node/service/nodecfg/singbox.go:137-157 | Server name and handshake from sni or server_name, the private key, and the accepted short ids, each from its own key |
| ConfigFields.SingBoxTlsFields | internal/node/service/nodecfg/singbox.go:159-173 | Certificate and key paths each from its own key |
| ConfigFields.XrayFields | internal/node/service/nodecfg/render.go:68-123 | Kind, tag, port, clients, and stream settings with network and security |
| ConfigFields.OutboundFields | internal/node/service/subgen/singbox.go:39-107 | Every field of a sing-box outbound by protocol and blob key, with its default |
| ConfigFields.ProxyFields | internal/node/service/subgen/clash.go:37-96 | Every field of a Clash proxy |
| ConfigFields.LinkFields | internal/node/service/subgen/v2ray.go:41-87 | Every part of a share link: a parameter is what the transport blob says, else the TLS blob, else the fixed one |
| ConfigFields.ViewFields | internal/node/service/subgen/expand.go:10-32 | A node with one inbound is shown as it is, one with more as one view per inbound with that inbound's fields |
| ConfigFields.DocumentFields | internal/node/service/nodecfg/singbox.go:20-63 | One listener per inbound in order, and statistics that name every subscriber |
| ConfigAgreement.ClientsAgree | internal/node/service/subgen/clash.go:37-96 | For any list of nodes the three client formats list the same names, addresses, ports and secrets in the same order |
| ConfigAgreement.ClientCompleteIffServerRenders | internal/node/service/subgen/singbox.go:39-107 | The client has an entry for every inbound if and only if the server can render the node |
| ConfigAgreement.RendersIffSupported | internal/node/service/nodecfg/render.go:68-88 | Either server document renders exactly when every inbound's protocol is known |
| ConfigAgreement.SingBoxSidesAgree | internal/node/service/nodecfg/singbox.go:65-125 | When the server renders, client outbounds and server inbounds correspond one to one in order: same type, port, cipher, TLS on both or neither, and every active subscriber's secret and flow are let in |
| ConfigAgreement.XraySidesAgree | internal/node/service/nodecfg/render.go:68-123 | The same subscription fits the node served by Xray |
| ConfigAgreement.ServerNamesAgreeIff | internal/node/service/nodecfg/singbox.go:137-173 | Client and server expect the same TLS server name exactly when the blob names it for both; a blob with only a server_name leaves the client with the node's address |
| ConfigAgreement.ShortIdAcceptedIff | internal/node/service/nodecfg/singbox.go:137-157 | The short id a Reality client sends is accepted exactly when the short_ids array holds it or, without one, when sid is a non-empty text |
| ConfigAgreement.NamesDistinctIff | internal/node/service/subgen/expand.go:18-27 | A node's client entries have distinct names exactly when no two of its inbounds speak the same protocol |
| Agent.Loop.WriteAtomic | cmd/node-agent/configloop.go:107-113 | The target changes only when both the write and the rename work |
| Agent.Loop.PullAndApply | cmd/node-agent/configloop.go:66-105 | Version and file after every kind of reply; the version stays one that names the file |
| Agent.VersionNamesFile | cmd/node-agent/configloop.go:66-113 | Over every run of failing requests, writes, renames and restarts the known version is empty or names exactly the file on disk |
| Agent.UnchangedMeansCurrent | internal/node/transport/httpapi/handler.go:332-352 | With collision-free versions an unchanged reply comes exactly when the disk holds the current rendering and the agent still knows a version |
| Agent.PullReachesCurrent | cmd/node-agent/configloop.go:66-105 | After any run one pull whose calls work leaves the current rendering on disk |
| Agent.MissesIffCollision | internal/node/transport/httpapi/handler.go:343-346 | Without that premise a good pull misses exactly when the known version also names the new rendering but the file differs |
| Agent.QuietWhileNothingChanges | internal/node/service/nodecfg/render.go:32-66 | While node and subscribers stay the same later pulls are answered unchanged and touch nothing, in whatever order subscribers are listed |
| Traffic.Service.ReportUsage | internal/traffic/service/service.go:50-101 | Every item is accepted or rejected whatever fails, and the tables, the sink included, are those of the item-by-item specification |
| Traffic.BatchConserves | internal/traffic/service/service.go:54-99 | In a fault-free batch below the 64-bit limits a user's traffic_used, daily bytes and collected events all grow by exactly the bytes charged to that user |
| Traffic.ReportConserves | internal/traffic/service/service.go:50-101 | After a fault-free report through a wired sink a known user's account, day and stored sink have all grown by the bytes of the user's items, day and sink in each direction |
| Traffic.SinkAfterReport | internal/traffic/service/service.go:95-99 | Whatever calls fail: with a working sink each user's bytes in it grow by those of the user's items in each direction, behind what was there; otherwise the sink is as it was |
| Traffic.EventsInOrder | internal/traffic/service/service.go:68-75 | Each item with an owner leaves one event with its own bytes, in the order of the items |
| Traffic.OwnerIs | internal/traffic/service/service.go:54-67 | An item is charged to the user it names, else to the one its token belongs to, else to nobody |
| Traffic.ItemCharges | internal/traffic/service/service.go:68-93 | One item with any calls failing: when it is accepted, and what account, day, flag and cache then hold |
| Traffic.ReportBansRightly | internal/traffic/service/service.go:84-92 | Whatever calls fail, a report bans and caches only users at or over a positive quota |
| Traffic.SinkIsAccountAndMissed | internal/traffic/service/service.go:54-99 | Whatever calls fail, a user's sink bytes are what the account gained plus the bytes of refused increments |
| Traffic.SinkAgreesIff | internal/traffic/service/service.go:72-82 | Sink and account agree exactly when no item of the user that carries bytes had its increment refused |
| Traffic.OnlyOwnerlessRejected | internal/traffic/service/service.go:54-66 | Without faults the rejected items are exactly those that name no user; an unknown user id is accepted and charges nobody |
| Traffic.OverQuotaIsBanned | internal/traffic/service/service.go:84-92 | Every user charged in a fault-free batch who is at or over a positive quota is banned when it ends |
| Traffic.Service.RecomputeBans | internal/traffic/service/service.go:123-151 | Counts, flags and cache after a round, for every combination of failing listings, flag writes and cache writes; the second listing is taken from the table the bans have left |
| Traffic.RoundIs | internal/traffic/service/service.go:123-151 | Flags and cache of each user after a round, for every pattern of failing calls |
| Traffic.RoundRepairs | internal/traffic/infra/gormrepo/repo.go:80-112 | For any rows the LIMIT picks a round flips no correct flag, never bans and unbans one user, and puts right exactly min(batch, k) of the k wrong flags of each kind |
| Traffic.SettlesIff | internal/traffic/service/service.go:123-151 | The flags settle exactly when rounds times batch reach the larger number of wrong flags |
| Traffic.SettledStays | internal/traffic/service/service.go:123-151 | After that every round reports (0, 0) and changes nothing |
| Traffic.SettledFlags | internal/traffic/infra/gormrepo/repo.go:90-112 | Settled flags say exactly who is over quota or expired unless a banned user below quota has a plan ending at this very instant, whom neither query lists |
| Traffic.RoundsSetRight | internal/traffic/service/service.go:123-151 | Once rounds times batch reach both numbers of wrong flags, exactly the users over quota or expired are banned, if and only if no user began banned, below quota and with a plan ending at this very instant |
| Traffic.StuckAtExpiry | internal/traffic/infra/gormrepo/repo.go:90-112 | Such a user stays banned whatever the rounds list |
| Traffic.FlipsAreRepairs | internal/traffic/infra/gormrepo/repo.go:80-88 | Whatever flag writes fail, a flag that changes was wrong |
| Traffic.ReportsKeepCache | internal/traffic/infra/redisban/redisban.go:26-41 | Fault-free reports through a service wired with the cache keep it equal to the banned users |
| Traffic.RoundKeepsCacheIff | cmd/worker/main.go:113-119 | A fault-free round keeps them equal if and only if the service running it is wired with the cache or has nothing to do |
| SubIp.Tracker.Touch | internal/risk/infra/rediskv/rediskv.go:45-58 | Trim, add, push the deadline, count |
| SubIp.TouchCountsRecent | internal/risk/infra/rediskv/rediskv.go:45-58 | Under a monotone clock and a window of at least a second each touch returns the number of distinct addresses its token was used from within the window, whenever keys are evicted |
| SubIp.CountsIffWholeSeconds | internal/risk/infra/rediskv/rediskv.go:48-49 | That is right for every history exactly for windows of at least one second |
| SubIp.ZeroWindowSeesOne | internal/risk/infra/rediskv/rediskv.go:48-49 | A window cut off to 0 seconds makes every touch return 1 |
| SubIp.Guard.SubGuard | internal/risk/service/service.go:158-187 | Revokes exactly when enabled, wired, with a positive threshold and that many distinct addresses within the window, an hour when none is configured; a window below a second counts one; a failing store allows |
| JsonString.Print | internal/pkg/audit/gorm.go:77-102 | The byte loop appends the literal |
| JsonString.RoundTrip | internal/pkg/audit/gorm.go:77-102 | For every byte string decoding the literal by the grammar of section 7 of RFC 8259 gives it back |
| JsonString.NoControlBytes | internal/pkg/audit/gorm.go:93-98 | The literal holds no raw control byte |
| JsonString.OnlyOuterQuotes | internal/pkg/audit/gorm.go:77-102 | Its unescaped quotes are its first and last byte and no other |

## Left out

- HTTP, JSON request binding, gin, CLI, configuration loading, logging, metrics, mailers and user interfaces.
- GORM, MySQL, Redis and ClickHouse themselves: each repository call is one atomic step on maps, sequences and sets. Connection handling, transactions around single calls and DATETIME rounding are not modelled; the clock is in whole seconds.
- Provider SDKs, signatures, hashes and tokens: a verified notify, a poll result and a version hash are inputs.
- Catalogue reads in CreateOrder and the coupon quote it calls: one step that succeeds or not, with the amount and discount texts it yields as inputs; what a quote promises about those texts is in Pricing.
- A coupon's lookup by code and its counter update are one step; the code is taken as already trimmed, since the quote trims it and the order stores it raw.
- An empty idempotency key is replaced by a random one before the first lookup; only non-empty keys are modelled.
- The statuses refunded and failed, which no code path modelled here writes, and the address pool's Release, which nothing calls.
- The unique index on channel and trade number compares texts exactly; the collation of the schema, which ignores case and accents, is not modelled.
- The mock provider stands for the mock channel only, not for another channel in its place.
- big.Rat's fraction and exponent notations; amounts are plain decimal texts, and other text reads as 0.
- Overflow of unsigned columns other than traffic_used, and 64-bit overflow in block numbers and instants.
- Days are 86400 seconds: instants are in UTC. traffic_reset_at, a calendar month ahead of the purchase, is not among the user's modelled fields.
- Services.Billing.HandlePaid: within one uninterrupted handler the clock stands still; the interleaved machine lets it move between any two calls.
- Effects.FinishedOrdersStay: needs handlers on one order not to overlap, because the code's status write has no guard; Overlaps.PaidThenCancelled is the run without that.
- Routing.TransferSettlesItsLease: needs each transaction to pay one address, because lookup by trade number comes first; Routing.OnLeaseIff shows the premise exact.
- Delivery.NeverCreditedIff: covers transfers whose transaction is on no payment yet, each handled without interruption.
- OnePaid.TwoCanBePaidIff: leaves out the USDT channel, where OnePaid.TwoCanBePaid gives one direction: what can still be paid there depends on transactions not yet sent.
- The chain is fixed and lists a block's transfers in the same order each time; the scanner's run loop and its timer.
- ServerConfig.RenderSingBox: takes the order sort.Slice leaves instead of sorting the caller's slice in place.
- Fixed parts of the rendered documents (log, DNS, routing, policy), the text form of YAML, JSON and share links, and base64: documents are compared as trees of the fields that depend on node and subscribers.
- Decoding of TLS, transport and inbound blobs: a blob is empty, malformed, or an object of strings, string arrays and other values with the text they print as.
- Agent.VersionNamesFile: a rename either happens and reports success or does not happen; the reload command is not modelled.
- Traffic.RoundKeepsCacheIff: key expiry and manual edits of the ban cache are not modelled.
- SubIp.Tracker.Touch: the four commands of a pipeline run together; a failing pipeline is taken to have done nothing.
- Rotation of the token and the alert mail behind SubGuard, lockout counters, device fingerprints and GeoIP checks.
- Refresh of SDK tokens, tickets, SLA figures, locale matching, administration, listings, invitations and refunds: easy or unordered members.
