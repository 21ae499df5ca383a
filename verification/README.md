# Cashtippr payment core, modelled in Dafny

Cashtippr is a WordPress plugin for Bitcoin Cash tips. When a tip button
is rendered, a pending transaction row is stored under an internal txid. This
project models three parts of the plugin:

- **Payment reconciliation.** `processClientPayment` handles a client's
  confirmation of a txid. It credits the post's `tipAmount`, the tipping
  user's total and history, an optional access pass and the two global
  counters `tips` and `tip_amount`. It then deletes the row unless the `keep`
  parameter is literally `true`. An unknown txid gets "Payment not found".
- **The QR-code cache.** `generateQrCode` / `getQrCode` name an image file
  after `sha512(txid . amount)`. An existing file is served as is. On a miss,
  a `bitcoincash:` payment URI is rendered from the pending row.
- **Two helpers.** `Helper::updateOrderMeta` writes an order meta value only
  when it differs. `Helper::getHttpOptions` gives the default HTTP options.

The state is immutable: maps for the transactions table, the post meta and
the QR image directory. Every operation is a pure function from the old state
to a new state plus a response. The `Reconciler.Ledger` datatype gathers
everything reconciliation touches. The QR image directory maps each file name
to the payment URI rendered into it, so the stored-amount fallback can be
observed.

Amounts are `real`. PHP floats are exact here: rounding is not modelled.
These calls are fields of `QrCache.QrEnv`, so they stay uninterpreted:

- the sha512 hash;
- PHP's float-to-string conversion;
- `toAmountBCH`;
- `plugins_url`.

No property of the hash is assumed, injectivity included. PHP request and
meta values are modelled as `Php.Value` (scalars and null), and PHP's `===`
is structural equality on it.

Files: `php.dfy`, `api_response.dfy` (`CashtipprApiRes`), `reconciler.dfy`,
`qr_cache.dfy`, `interplay.dfy` (how the cache and the reconciler share the
transactions table), `helper.dfy`.

Behaviour of the code that the model keeps:

- An access pass is granted for any non-zero `days`, negative values
  included (`$days !== 0`).
- The row is kept only when the `keep` value the handler receives is
  identical to boolean `true`. An absent parameter (null) or `false` deletes it.
- The cache key hashes the txid and the amount's text concatenated with no
  separator. Distinct `(txid, amount)` requests can therefore share a file
  (`QrCache.ConcatenatedKeysCollide`). No property of sha512 is assumed, so
  distinct requests are not claimed to get distinct images.
- Find-then-delete and file-exists-then-write run in sequence. Nothing makes
  them atomic, so the model is sequential. Its exactly-once result
  (`Reconciler.DuplicateDeliveriesCreditOnce`) covers deliveries processed
  one after another.
- The code does not handle storage or rendering failures, and the model has
  none.

## Model

| member | source | states |
|---|---|---|
| `ApiResponse.SetError` | classes/CashtipprApi.class.php:7-10 | The response is marked as an error and carries the given message. Its data is untouched. |
| `ApiResponse.SetErrorLastWins` | classes/CashtipprApi.class.php:7-10 | Setting an error twice is the same as setting only the second one. |
| `Reconciler.Reconcile` | classes/CashtipprApi.class.php:123-170 | Unknown txid: "Payment not found" and the ledger is unchanged. Known txid: no error, and the post total (if post id is not 0) gains `am` with every other post unchanged. The user total and the counters `tips` (+1) and `tip_amount` (+am) are credited once, `(post, am)` is appended to the history once, and a pass is granted iff `days != 0`. The row is removed unless `keep` is literally true, and no other row changes. |
| `Reconciler.ReplayIsNoOp` | classes/CashtipprApi.class.php:129-166 | After a confirmation that did not keep the row, confirming the same txid again (any amount, any `keep`) fails with "Payment not found" and changes nothing. The counters stay at +1 and +am. |
| `Reconciler.KeptRowCreditsAgain` | classes/CashtipprApi.class.php:159-161 | With `keep` literally true the row stays, so a second confirmation credits again: `tips` +2, `tip_amount` + both amounts. |
| `Reconciler.ReconcileAll` | classes/CashtipprApi.class.php:123-170 | Processing a run of confirmations in sequence yields one response per confirmation, and `tips` grows by exactly the number of responses that are not errors. |
| `Reconciler.AbsentDeliveriesChangeNothing` | classes/CashtipprApi.class.php:163-166 | Any number of confirmations of a txid that is not pending leave the ledger unchanged and all fail with "Payment not found". |
| `Reconciler.DuplicateDeliveriesCreditOnce` | classes/CashtipprApi.class.php:129-166 | N sequential confirmations of one pending txid, the first not keeping the row, leave the ledger exactly as the first confirmation alone does: post total, user total, history, access pass, `tips` (+1) and `tip_amount` (+ first amount) are credited once. The row is deleted, the first response succeeds and the other N-1 fail. |
| `Reconciler.ConfirmationsCommute` | classes/CashtipprApi.class.php:132-161 | Confirming two distinct pending transactions in either order leaves the same post totals, remaining rows, user total and counters. The history and access passes hold the same entries in both orders. |
| `Reconciler.CreditsCommuteOnTotals` | classes/CashtipprApi.class.php:135-161 | Crediting two different rows in either order gives the same post totals, transactions table, user total, `tips` and `tip_amount`. |
| `Reconciler.CreditsCommuteOnHistory` | classes/CashtipprApi.class.php:145-149 | Crediting two rows in either order records the same tipped-post entries and access passes, as multisets. |
| `Reconciler.AddPostTipCommutes` | classes/CashtipprApi.class.php:136-140 | Adding two tips to post totals gives the same totals in either order, whether the posts are the same, different or 0. |
| `Reconciler.CreditsAddUp` | classes/CashtipprApi.class.php:135-157 | A run of confirmations of distinct pending transactions for one post, in any order and with any `keep`, adds exactly the sum of their amounts to the post total and to `tip_amount`. `tips` grows by one per confirmation and no response is an error. |
| `QrCache.GenerateQrCode` | classes/CashtipprApi.class.php:226-247 | Cached images are never removed or overwritten, and at most the request's own file is created. A hit returns the URL and changes nothing. A miss with no row returns "" and creates nothing. A miss with a row renders the stored address with the request's amount, or the stored amount when the request says 0, and returns the URL. |
| `QrCache.GetQrCode` | classes/CashtipprApi.class.php:172-180 | With neither a cached image nor a pending row, the response is the error "Unable to generate QR Code" with no data. Otherwise it is a success whose only data item is the URL, unless that URL is empty. |
| `QrCache.RepeatedRequestIsHit` | classes/CashtipprApi.class.php:229-234 | Once a request has produced a URL, repeating it returns the same URL and directory, whatever the transactions table holds by then. |
| `QrCache.HitIgnoresTransactions` | classes/CashtipprApi.class.php:233-238 | On a cache hit the result does not depend on the transactions table. |
| `QrCache.ZeroAmountRendersStoredAmount` | classes/CashtipprApi.class.php:241-245 | A request with amount 0 renders the same payment URI as a request with the stored amount. The URI holds the stored address and amount. |
| `QrCache.ConcatenatedKeysCollide` | classes/CashtipprApi.class.php:229-234 | When the text of amount `a` is "1" followed by the text of `b`, the requests `(txid, a)` and `(txid + "1", b)` are distinct but share a cache key, and the second is served the first's image. |
| `Interplay.QrCodeSurvivesReconciliation` | classes/CashtipprApi.class.php:233-240 | A QR request made while the row existed gets the same response after the transaction is reconciled and deleted. |
| `Interplay.QrCodeAfterReconciliationNeedsCache` | classes/CashtipprApi.class.php:236-240 | Without a cached image, a QR request after reconciliation without `keep` fails with "Unable to generate QR Code" and creates no file. |
| `Helper.UpdateOrderMeta` | classes/Helper.php:13-20 | It reports no update iff the current value (`""` when missing or null) is identical to `value`, and then the metadata is unchanged. Otherwise `key` now holds `value`. Afterwards `key` reads as `value` when `value` is not null; a null `value` reads back as `""` and is always reported as an update. No other key changes. |
| `Helper.UpdateOrderMetaIdempotent` | classes/Helper.php:13-19 | A second identical update with a non-null value reports no change and leaves the metadata as the first one left it. |
| `Helper.NullUpdateAlwaysReports` | classes/Helper.php:13-19 | Writing null reports an update on every call, because the stored null reads back as `""` and never equals null. |
| `Helper.GetHttpOptions` | classes/Helper.php:77-88 | The timeout is the caller's when `isset`, 10 otherwise, and never null. There are exactly three headers: JSON Content-Type, JSON Accept and Cache-Control `no-cache,max-age=0`. |
| `Helper.HttpOptionsDependOnlyOnTimeout` | classes/Helper.php:77-88 | The headers are the same for all options. Two option maps with the same `timeout` setting give identical results. |

## Left out

- Route registration (`init`), the permission callbacks, the `processPayment` stub and `addNoCacheHeaders`. They are framework plumbing with no logic.
- `getAdBlockInfoPost`. It is hooks, filters, post lookup and localisation, all framework calls.
- The `sanitizeStringParam` / `sanitizeFloatParam` callbacks. They are PHP's `trim` and float parsing. Parameters arrive here already parsed.
- WordPress's coercion of typed REST arguments. The `keep` argument is declared boolean, so the framework turns a request's `"true"` into boolean `true` before the handler runs. The model starts from the value the handler receives.
- `Helper.UpdateOrderMeta`: meta values are limited to scalars and null; arrays (compared by `===` on ordered key/value pairs) and objects (compared by identity) are not modelled. The meta map is one in-memory order object: the database round trip, which reads every saved value back as a string (so a non-string value would be reported as updated again), is not modelled.
- WooCommerce's meta storage is not part of this model. `Helper.GetMeta` assumes that a null-valued meta reads back as `""`, the same as a missing key.
- SQL queries, `get_post_meta`/`update_post_meta` and the settings store. They appear as maps and fields of `Reconciler.Ledger`.
- The `Cashtippr` class (`addTipAmount`, `addTippedPost`, `addFullAccessPass`, the settings object) is not part of this model. Its effects are a running total, an appended history entry, an appended pass length and two counters.
- PNG rendering, `toAmountBCH`, sha512 and `plugins_url` are uninterpreted functions. Rendering records the payment URI under the file name.
- Floating-point rounding, and PHP's loose `==` between a float and a non-float. Amounts are exact reals.
- Concurrency. Two requests cannot interleave in this model.
- `restApiGet` / `restApiPost`. They are HTTP I/O and JSON decoding.
- `Reconciler.ReconcileAll`: only the length of the response list and the `tips` accounting are in its own contract. What a run credits is stated by `Reconciler.DuplicateDeliveriesCreditOnce` and `Reconciler.AbsentDeliveriesChangeNothing`.
