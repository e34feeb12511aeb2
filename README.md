# Solana USDT/USDC transfer watcher: the message handler

The watcher subscribes to a Helius `transactionSubscribe` stream for one wallet and, for every
notification, decides whether to send a "New Buy Alert" to a list of Telegram chats. This
project models that decision: the `message` handler in `index.js`.

- **Dedup gate.** A module-level set `seen` holds transaction signatures. A notification without
  a transaction is ignored. A transaction whose first signature is already in `seen` is ignored.
  Otherwise the signature is added to `seen` *before* the instructions are looked at, so a
  transaction that raises no alert is still marked as seen.
- **Extraction.** The scanned instructions are the top-level instructions followed by every
  inner-instruction group's instructions, in order (`Transactions.Flatten`). An instruction is
  considered only when its program is `spl-token` and its parsed type is `transfer`. Its mint is
  then looked up in the token table (USDT and USDC, six decimals each, walked in that order). Its
  raw amount, divided by `10^decimals`, must reach `MIN_ALERT = 1`. The handler raises an alert
  for the first instruction that passes all of this and then returns. The alert carries the
  token symbol, the scaled amount and the signature.

Modules:

- `Wrappers` (`wrappers.dfy`): `Option`, for the properties JavaScript may find missing.
- `Transactions` (`transactions.dfy`): the decoded notification as datatypes, and the
  flattening of a transaction's instructions, with its layout and membership lemmas.
- `Alerts` (`alerts.dfy`): the token table, the threshold, the per-instruction test and the
  first-match scan. It also holds `AllAlerts`, a reference scan that raises an alert for every
  qualifying instruction, to state exactly what the early return drops.
- `Tracker` (`tracker.dfy`): the class `Watcher`, whose field `seen` the handler
  `OnMessage` updates in place with nested loops, `continue` and an early return. Its result is
  proved equal to the pure step function `Handle`. `Run` folds `Handle` over a stream of
  messages in arrival order, and lemmas about `Run` state the dedup guarantees.

The source computes `amountRaw / 10 ** decimals >= MIN_ALERT` in floating point. The model
tests `raw >= MIN_ALERT * 10^decimals` over the integers. `Alerts.ThresholdExact` proves this
equals the exact rational test. The alert's amount is the exact rational `raw / 10^decimals`,
a Dafny `real`.

The handler raises at most one alert per transaction: the `return` at index.js:109 ends the
scan at the first qualifying instruction, even when later instructions qualify too.
`Alerts.AllAlerts` is a reference scan that raises an alert for every qualifying instruction.
`Alerts.FirstAlertIsHeadOfAll` proves that the handler's alert is the first of those, and
`Alerts.TwoTransfersOneAlert` shows what the `return` drops: a 5 USDT + 3 USDC transaction
raises only the USDT alert. The transfer's destination is never checked. `seen` is never
pruned: it has no cap and no eviction, and there is no first-run cursor, so a transaction
delivered on the first connection alerts like any other.

## Model

| member | source | states |
|---|---|---|
| Transactions.ConcatLength | index.js:94 | `Concat` (the `flatMap` over inner groups; see also ConcatPlacesGroup and ConcatMembers): the joined inner-instruction lists are as long as all groups together |
| Transactions.ConcatPlacesGroup | index.js:94 | each inner group appears unchanged and in order at its offset (the lengths of the groups before it) in the joined list |
| Transactions.ConcatMembers | index.js:94 | an instruction is in the joined list iff it is in one of the groups |
| Transactions.FlattenLength | index.js:92-95 | `Flatten` (the spread of top-level instructions and the `flatMap` of inner groups; see also FlattenPlacesGroup and FlattenMembers): the scanned sequence starts with the top-level instructions, unchanged, and its length is the top-level count plus all inner groups' counts |
| Transactions.FlattenPlacesGroup | index.js:92-95 | inner group k is found, unchanged, right after the top-level instructions and the groups before it |
| Transactions.FlattenMembers | index.js:92-95 | an instruction is scanned iff it is top-level or in some inner group: nothing is added or lost |
| Alerts.Pow10 | index.js:106 | the divisor `10 ** decimals` is at least 1 |
| Alerts.FirstMatch | index.js:104-111 | the token-table walk stops at the first entry the instruction matches, and finds none exactly when no entry matches |
| Alerts.ThresholdExact | index.js:106-107 | `MeetsThreshold` (the integer threshold test) and `Scaled` (the exact scaled amount): `raw >= MIN_ALERT * 10^decimals` holds iff the exactly scaled amount `raw / 10^decimals` is at least `MIN_ALERT` |
| Alerts.QualifiesIff | index.js:98-107 | `IsTokenTransfer` (the filters at index.js:98-99) and `Qualifies`: an instruction qualifies iff it is an `spl-token` `transfer` with a numeric amount whose mint is some table entry's and whose raw amount reaches the minimum times that entry's `10^decimals` |
| Alerts.AlertOfMeaning | index.js:104-108 | `AlertOf` (the alert built at index.js:108): the alert names a table token whose mint the instruction carries, its amount is the raw amount scaled by that token's decimals, it reaches `MIN_ALERT`, and it carries the signature |
| Alerts.FirstAlertNone | index.js:97-113 | the scan raises nothing iff no instruction qualifies |
| Alerts.FirstAlertAt | index.js:97-110 | when instruction i is the first to qualify, the scan raises exactly its alert |
| Alerts.FirstAlertIsFirst | index.js:97-110 | `FirstAlert` (the first-match scan; see also FirstAlertNone, FirstAlertAt, FirstAlertSkips and FirstAlertStops) and `Detect` (that scan over `Flatten` with the configured table and the first signature): any alert raised belongs to an instruction that qualifies and has no qualifying instruction before it |
| Alerts.FirstAlertSkips | index.js:97-113 | non-qualifying instructions in front change nothing: the scan continues after them |
| Alerts.FirstAlertStops | index.js:108-109 | once a prefix raises an alert, instructions after it are never looked at |
| Alerts.FirstAlertIsHeadOfAll | index.js:97-113 | the alert raised is the first of the alerts an every-match scan would raise, and none when that scan raises none |
| Alerts.NoTransferNoAlert | index.js:98-99 | a transaction without an `spl-token` `transfer` raises no alert |
| Alerts.ConfiguredThreshold | index.js:14-25 | with the configured table and `MIN_ALERT = 1`, a transfer qualifies iff its mint is USDT's or USDC's and its raw amount is at least 1,000,000 |
| Alerts.ThresholdBoundary | index.js:104-107 | 1,000,000 raw USDT units alert with amount 1; 999,999 do not |
| Alerts.TwoTransfersOneAlert | index.js:108-109 | a transaction with a 5 USDT and a 3 USDC transfer raises one alert, for 5 USDT, although an every-match scan raises two |
| Tracker.Watcher.constructor | index.js:32 | the handler starts with no signature seen |
| Tracker.Watcher.OnMessage | index.js:83-114 | `Handle` (the handler as a pure step, which `OnMessage` is proved equal to): no transaction: nothing changes and no alert; a seen signature: nothing changes and no alert; a new signature: it alone is added to `seen`, whatever the scan finds, and the alert is the first-match scan of the flattened instructions |
| Tracker.DetectSignature | index.js:88-108 | an alert carries the first signature of the transaction it was raised for |
| Tracker.RunSeen | index.js:88-90 | `Run` (`Handle` applied to each message of a stream in arrival order; see also RunAlertsFresh, RunQuiet, Replay and RunConcat): after a stream, `seen` is the initial set plus every signature the stream carried, alerting or not |
| Tracker.RunAlertsFresh | index.js:88-90 | every alert of a stream is for a signature not seen before the stream, and no two alerts share a signature |
| Tracker.RunQuiet | index.js:89 | a stream of already-seen transactions raises nothing and leaves `seen` unchanged |
| Tracker.Replay | index.js:88-90 | delivering the same stream twice raises exactly the alerts of delivering it once |
| Tracker.RunConcat | index.js:83-114 | handling two streams one after the other is handling their concatenation |
| Tracker.HandleAll | index.js:83-114 | calling `OnMessage` on each message in arrival order yields the alerts and final `seen` of `Run` |

## Left out

- The WebSocket connection, the `transactionSubscribe` request and the reconnect after 5 s (index.js:59-81, 116-123): network I/O and timers.
- `JSON.parse` of the frame (index.js:84): the model starts from the decoded notification.
- A malformed notification that makes the handler throw (no `transaction.message.instructions`, a parsed instruction without `info`): the datatypes only hold well-formed transactions.
- A transaction with an empty signature list, whose key would be `undefined`: the model keeps only the first signature.
- `Number(...)` and the floating-point division (index.js:102, 106): amounts are exact integers, and an amount that does not read as a number is `None`. `Alert.amount` is the exact quotient `raw / 10^decimals`, while the source's `amount` is that quotient rounded to a double, which differs for almost every raw value. Only the caption's `toFixed(4)`, which is left out, would show the difference. The threshold test itself is exact for raw amounts below 2^53: a double quotient of such an integer by 10^6 reaches 1 exactly when the raw amount reaches 10^6. Raw amounts of 2^53 or more, which `Number(...)` already rounds, are not modelled.
- `sendAlert` (index.js:37-55): the Telegram `sendPhoto` calls, the HTML caption with `toFixed(4)`, the 800 ms delay and the per-chat error swallowing. The alert is returned as a value instead.
- The `/test` bot command and the environment configuration (index.js:3, 10-12, 131-133).
- Interleaving of concurrent `message` callbacks around the `await` at index.js:108: each message is handled atomically, in arrival order.
- The destination of a transfer is not checked by the source, so it is not part of the instruction datatype.
