# Affiliate commission bookkeeping

This project models the commission bookkeeping of a Laravel package. The package records who referred a new signup, attributes a registration commission to an affiliate user and credits that user's wallet. The whole of it lives in `src/CommissionTrait.php`. The model is written in Dafny and proved.

The affiliate database is one value, `Tables.Db`. It holds banners by id, commission offers by id, the rate table keyed by commission type, affiliate users keyed by `referral_code`, user sites keyed by `code`, wallets keyed by `user_id`, the append-only `aff_commission_histories` rows and the `referrers` rows. The fields of a `referrers` row follow the fillable list of `src/Models/Referrer.php:12`. The lookup helpers of lines 19-49 (`GetBannerData`, `FindBannerOfferCommission`, `GetCommissionData`, `GetAffiliateUserData`) are map lookups. The `referred` relation (lines 204-207) is `Tables.Referred`, which returns the first `referrers` row owned by the user.

There are two layers:

- Module `Bookkeeping` has one function per operation of the trait. Each maps a database to a `Step`: the database it leaves, the failures it logged with `Log::error` in order, and the throwable that escapes it, if any. Its `ensures` clauses state the effect on each table.
- Module `Store` has the class `AffiliateStore`. Its fields are the tables, and its methods perform the PHP statements in place. Each method is proved to leave exactly the tables, log and escaping throwable that the matching `Bookkeeping` function gives.

Module `Properties` proves lemmas that relate several calls.

Exceptions are explicit. `Tables.Failure` names each throwable the code raises and the line that raises it. `IsException` separates an `\Exception`, which every `catch` in the trait swallows, from the `TypeError` at line 120, which is an `\Error` and escapes `giveCommission`. Under Laravel's error handler, reading a property of `null` or of a boolean throws, so these reads are failures too. A failure leaves the tables as they were at the point of failure. Earlier writes stay in place: a history row written before a failed credit is kept.

Behaviours that the model states explicitly:

- **The request user pays out.** `giveCommission` picks the commission type from `$userData`'s record. The banner and direct paths then read the record of `request()->user()`, which is the explicit `requestUser` parameter. `PathReadsRequestUser` proves that when the request user has no record, nothing is written.
- **The two amounts differ.** The history row always records the rate. The wallet is credited with the offer's amount when the banner has an offer. See `CreditVersusHistory`.
- **A credit to a new wallet is lost.** When the wallet does not exist yet, `$wallet` holds the boolean that `insert` returned. Reading `->balance` from it throws, and line 91 catches that. The new wallet keeps balance 0 and the failure is logged. The next credit lands normally. See `FirstCreditLostSecondKept`.
- **The offer's `commission` column has two readers that disagree.** Line 120 passes it as an `int` amount. Line 178 reads `->user_commission` from it. `OfferCommission` allows both shapes, and a third: text that is not a number, such as JSON holding `user_commission` that was never decoded. `OfferShapeConflict` proves that no offer value satisfies both readers: either the capture fails or the credit throws the uncaught `TypeError`. `TextOfferFailsBoth` proves that on text both fail.
- **Only the literal `"null"` counts as absent.** A request parameter that was not sent is PHP `null`, and `null !== 'null'` holds. So a missing `u` is recorded as a null referrer without consulting `referrer_code`. A missing `b` makes the banner lookup fail, and no row is created.
- **Null keys match null columns.** `where(col, null)` becomes `col IS NULL`. So a null referrer code or host looks up the row whose code is null. Affiliate users and user sites are therefore keyed by `Option<string>`.

Some consequences of following the code line by line:

- The capture creates a row whenever no banner step throws, even when every token is the literal `"null"`: `Referrer::create` at lines 191-198 is not guarded by any check on the tokens.
- The banner path looks up the site by the `host` stored in the referrer record (line 136). The `h` token of the current request plays no part in it.
- The history row and the wallet credit can record different amounts. Line 111 always records the rate, while line 120 credits the offer's amount when the banner has an offer.
- A missing rate is a failure, not an amount of 0: line 39 reads `->commission` from the `null` that `first()` returns.

## Model

| member | source | states |
|---|---|---|
| `Tables.FirstOwned` | src/CommissionTrait.php:204-207 | `referred` finds no row exactly when no row belongs to the user; otherwise it finds the earliest row that does |
| `Bookkeeping.CommissionType` | src/CommissionTrait.php:214-215 | the type is the user type followed by `-banner-registration` exactly when `info` is non-null, and by `-direct-registration` exactly when it is null |
| `Bookkeeping.ResolveReferrer` | src/CommissionTrait.php:184-190 | the referrer is `u` unless `u` is the literal "null"; only then is `referrer_code` used, itself unless it is "null"; the result is never "null" |
| `Bookkeeping.IncrementWalletBalance` | src/CommissionTrait.php:85-94 | a fetched wallet's balance becomes the fetched balance plus the amount, with `other_balance` and every other wallet unchanged; given an insert result, nothing changes and the failure is logged |
| `Bookkeeping.FindOrCreateAffiliateUserWallet` | src/CommissionTrait.php:57-77 | a wallet with zero balances is created only when the user has none, so a user never gets a second wallet; an existing wallet is credited; a just-created wallet keeps balance 0 and the failure is logged |
| `Bookkeeping.CreditAmount` | src/CommissionTrait.php:120 | with an offer on the banner, the credit is the offer's amount; a missing offer throws, and an offer object or text throws the TypeError; without an offer, the credit is the rate, and a missing rate throws |
| `Bookkeeping.InsertCommissionInfo` | src/CommissionTrait.php:104-122 | exactly one history row is appended when the rate exists, with the affiliate id, the type, the banner as source when one is given, and the rate as commission; the credit is attempted even if that insert failed; a failed amount lookup leaves the wallets unchanged and escapes |
| `Bookkeeping.BannerRegistrationCommission` | src/CommissionTrait.php:131-143 | nothing changes unless the request user (or the fallback) has a record whose site exists, is approved and verified, and whose affiliate exists; with no user at all the read of `referred` throws |
| `Bookkeeping.DirectRegistrationCommission` | src/CommissionTrait.php:152-162 | a table changes only when the acting user has a record and its affiliate exists; with no user at all the read of `referred` throws |
| `Bookkeeping.GiveCommission` | src/CommissionTrait.php:211-220 | only history and wallets change; at most one history row is appended, after the existing ones; only the TypeError escapes; a user without a record changes nothing and logs the failure |
| `Bookkeeping.StoreReferrerData` | src/CommissionTrait.php:168-202 | exactly one row is appended if and only if `b` is "null", or the banner exists and has no offer or a structured offer; otherwise nothing changes and exactly one failure is logged: the missing banner, the missing offer, or an offer whose commission is an amount or text rather than an object with `user_commission`; the row's referrer comes from `u`/`referrer_code`, its host from `h`, its `info` is set exactly when `b` is not "null", and its commission is the offer's `user_commission` exactly when the banner has an offer |
| `Store.AffiliateStore.IncrementWalletBalance` | src/CommissionTrait.php:85-94 | the in-place update leaves the tables and log that `Bookkeeping.IncrementWalletBalance` gives |
| `Store.AffiliateStore.FindOrCreateAffiliateUserWallet` | src/CommissionTrait.php:57-77 | the in-place find-or-create returns the fetched row or the insert result and leaves the state `Bookkeeping.FindOrCreateAffiliateUserWallet` gives |
| `Store.AffiliateStore.InsertCommissionInfo` | src/CommissionTrait.php:104-122 | the in-place insert and credit leave the tables, log and escaping failure that `Bookkeeping.InsertCommissionInfo` gives |
| `Store.AffiliateStore.BannerRegistrationCommission` | src/CommissionTrait.php:131-143 | the in-place banner path agrees with `Bookkeeping.BannerRegistrationCommission` |
| `Store.AffiliateStore.DirectRegistrationCommission` | src/CommissionTrait.php:152-162 | the in-place direct path agrees with `Bookkeeping.DirectRegistrationCommission` |
| `Store.AffiliateStore.GiveCommission` | src/CommissionTrait.php:211-220 | the in-place dispatch and catch agree with `Bookkeeping.GiveCommission` |
| `Store.AffiliateStore.StoreReferrerData` | src/CommissionTrait.php:168-202 | the in-place capture agrees with `Bookkeeping.StoreReferrerData` |
| `Properties.CommissionTypeInjective` | src/CommissionTrait.php:214-215 | two commission types are equal only for the same user type and the same path |
| `Properties.FirstOwnedAppend` | src/CommissionTrait.php:191-198 | an appended `referrers` row is what `referred` finds only when no earlier row belongs to that user |
| `Properties.CaptureIsReferred` | src/CommissionTrait.php:191-207 | after a capture, a user with no earlier record is referred by the new row; an earlier record still wins; other users' records are unaffected |
| `Properties.DirectCaptureThenGrant` | src/CommissionTrait.php:152-220 | capturing without a banner and then granting writes one direct history row at the rate and credits an existing wallet by the rate |
| `Properties.BannerCaptureThenGrant` | src/CommissionTrait.php:131-220 | capturing from a banner without an offer on an approved, verified host and then granting writes one history row sourced from the banner and credits an existing wallet by the rate |
| `Properties.BannerGrantIffGate` | src/CommissionTrait.php:134-141 | on a banner record with a known affiliate and a rate, a history row is written if and only if the domain gate passes; otherwise nothing changes |
| `Properties.PathReadsRequestUser` | src/CommissionTrait.php:133-134 | a classified user is paid nothing when the request user has no record, and a missing request user is a logged failure |
| `Properties.InsertWithoutBannerFrame` | src/CommissionTrait.php:104-122 | without a banner, the commit's result depends only on rates, wallets and histories |
| `Properties.DirectPathIgnoresBanners` | src/CommissionTrait.php:152-162 | the direct path gives the same result whatever the banners, offers and user sites are |
| `Properties.CreditVersusHistory` | src/CommissionTrait.php:111-120 | the history row records the rate, while the wallet grows by the offer's amount with an offer and by that same rate without one |
| `Properties.MissingRateAbortsBoth` | src/CommissionTrait.php:39-120 | on a direct record with no rate, no row is written and no wallet changes; both lookups are logged |
| `Properties.CreditDespiteHistoryFailure` | src/CommissionTrait.php:106-120 | with an offer and no rate, the history insert fails but the wallet is still credited with the offer's amount |
| `Properties.FirstCreditLostSecondKept` | src/CommissionTrait.php:57-94 | the first commit to a user without a wallet creates it at 0 and loses the credit; a second commit credits it, and two rows are written |
| `Properties.OfferShapeConflict` | src/CommissionTrait.php:120-178 | for a banner with an existing offer, either the capture fails reading `user_commission` or the credit throws a TypeError that no catch handles |
| `Properties.TextOfferFailsBoth` | src/CommissionTrait.php:120-178 | an offer whose commission is text that is not a number makes the capture log the failed `user_commission` read with nothing written, and makes the credit throw the TypeError with the wallets unchanged |
| `Properties.ExampleUnverifiedHost` | src/CommissionTrait.php:137 | seller banner 7 without offer, rate 50, host not verified: nothing is written |
| `Properties.ExampleCommit` | src/CommissionTrait.php:104-122 | committing banner 7 without offer at rate 50 to the wallet holding 100 writes one row of 50 from the banner and leaves the wallet at 150 |
| `Properties.ExampleBannerPath` | src/CommissionTrait.php:131-143 | in the worked example, the approved and verified host and the known affiliate let the banner path commit to affiliate 9 with banner 7 |
| `Properties.SellerBannerType` | src/CommissionTrait.php:214-215 | a `seller` with a banner record gets the commission type `seller-banner-registration` |
| `Properties.ExampleReferred` | src/CommissionTrait.php:204-207 | the worked example's referrer row is the one `referred` loads for user 1 of type `Seller`, whatever the user's name |
| `Properties.GiveForwardsBannerPath` | src/CommissionTrait.php:213-219 | on a banner record, when the banner path raises nothing, the commission is exactly that path's step |
| `Properties.ExampleGive` | src/CommissionTrait.php:213-219 | in the worked example with a verified host, the commission is exactly the commit for affiliate 9 with banner 7 |
| `Properties.ExampleVerifiedHost` | src/CommissionTrait.php:131-143 | the same with a verified host: one history row of 50 from banner 7, and the wallet goes from 100 to 150 |

## Left out

- Click and view attribution, the `_ar_click` deduplication cookie, statistics rows and cost accrual are not modelled: they are not part of `src/CommissionTrait.php`, which is the part this model covers.
- `src/CommissionServiceProvider.php` is not part of this model. It publishes configuration and migrations.
- The configurable `referrers` table name is not modelled. Only the field list of `src/Models/Referrer.php` shapes `ReferrerRow`.
- Database failures (lost connection, constraint violations) are not modelled. The model covers the failures that the code's own reads raise.
- `json_encode` failing on a name that is not valid UTF-8 is not modelled. `information` is kept as its `{name, user_type}` value.
- Timestamps and `Log::error` message texts are not modelled. The log keeps the failure kind.
- `base64_decode` is not modelled. `Request.bannerId` is the id the decoded token names.
- Amounts, balances and rates are integers. PHP's coercion of decimal and numeric-string columns to `int $amount` is not modelled.
- Several affiliate users sharing a `referral_code`, or several sites sharing a `code`, are not modelled. Each map holds one row per code, the row that `first()` would return.
- `info` is taken to be the `{banner_id}` payload that the capture writes. Other JSON written by other code is not modelled.
- The return value of `findOrCreateAffiliateUserWallet` after its own catch fires is not modelled. That catch only fires on database failures.
- Concurrency and the non-atomic read-then-write of balances are not modelled. Calls are strictly sequential.
- `User.kind` stands both for `get_class($userData)`, which the capture writes (line 193), and for the morph class that `morphOne` queries (line 206). The two are equal only when the application declares no morph map; a morph map is not modelled.
- `OfferCommission.Structured` is kept although the query builder only returns scalar columns (an `Amount` for a numeric value, a `Text` for any other string), so that the model covers what each reader of the offer's `commission` expects.
