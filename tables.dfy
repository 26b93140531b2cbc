/**
 * The rows of the affiliate database that the commission bookkeeping reads
 * and writes, the whole database as one value, and the lookup helpers of
 * src/CommissionTrait.php (lines 19-49) as map lookups.
 */
module Tables {
  import opened Wrappers

  type UserId = int
  type BannerId = int
  type OfferId = int

  /** A user of the host application: its morph class (get_class), its key and its name. */
  datatype User = User(kind: string, id: UserId, name: string)

  /** A `banners` row without its key; `offerId` is the nullable `offer_id` column. */
  datatype BannerRow = BannerRow(offerId: Option<OfferId>)

  /** A banner as a lookup returns it: the row together with its `id`. */
  datatype Banner = Banner(id: BannerId, offerId: Option<OfferId>)

  /**
   * The `commission` column of a `commission_offers` row as the query builder
   * hands it back: a plain amount, an object carrying `user_commission`, or
   * text that is not a number (such as JSON that was never decoded).
   */
  datatype OfferCommission = Amount(amount: int) | Structured(userCommission: int) | Text(text: string)

  /** An affiliate `users` row; only its `id` is used. */
  datatype AffiliateUser = AffiliateUser(id: UserId)

  /** A `user_sites` row: the domain registration of a referring host. */
  datatype UserSite = UserSite(status: string, verified: bool)

  /** A `wallets` row without its `user_id` key. */
  datatype Wallet = Wallet(balance: int, otherBalance: int)

  /** The `information` payload of a history row: `['name' => ..., 'user_type' => ...]`. */
  datatype ExtraInfo = ExtraInfo(name: string, userType: string)

  /** An `aff_commission_histories` row (timestamps left out). */
  datatype HistoryRow = HistoryRow(
    userId: UserId,
    fromId: Option<BannerId>,
    fromType: Option<string>,
    commission: int,
    commissionType: string,
    information: ExtraInfo)

  /** A `referrers` row; `info` is the `{banner_id}` payload, kept as the banner id it carries. */
  datatype ReferrerRow = ReferrerRow(
    userId: UserId,
    userType: string,
    referrer: Option<string>,
    host: Option<string>,
    commission: Option<int>,
    info: Option<BannerId>)

  /** Why a step failed: each one is a throwable that the PHP code raises at a known line. */
  datatype Failure =
    | MissingRate(commissionType: string)  // no `commissions` row: `->commission` read on null
    | MissingOffer(offerId: OfferId)       // no `commission_offers` row: `->commission` read on null
    | OfferWithoutUserCommission           // `->user_commission` read on a plain amount or on text
    | AmountNotInteger                     // an offer object or text passed for `int $amount`: a TypeError
    | MissingBanner                        // no banner for the decoded token: `->offer_id` read on null
    | BalanceOfInsertResult                // `->balance` read on the boolean an insert returned
    | NoUser                               // no request user and no fallback: `->referred` read on null
    | NoReferrerRecord                     // the user has no referrer record: `->info` read on null
    | InfoNotJson                          // `json_decode` of a null `info` under JSON_THROW_ON_ERROR

  /** `catch (\Exception)` catches every failure except the TypeError, which is an \Error. */
  predicate IsException(f: Failure) {
    !f.AmountNotInteger?
  }

  /**
   * The affiliate database. Affiliate users and user sites are keyed by their
   * nullable code, because `where(col, null)` asks for `col IS NULL`.
   */
  datatype Db = Db(
    banners: map<BannerId, BannerRow>,
    offers: map<OfferId, OfferCommission>,
    rates: map<string, int>,
    affiliates: map<Option<string>, AffiliateUser>,
    sites: map<Option<string>, UserSite>,
    wallets: map<UserId, Wallet>,
    histories: seq<HistoryRow>,
    referrers: seq<ReferrerRow>)

  function GetBannerData(db: Db, id: BannerId): Option<Banner> {
    if id in db.banners then Some(Banner(id, db.banners[id].offerId)) else None
  }

  function FindBannerOfferCommission(db: Db, offerId: OfferId): Result<OfferCommission, Failure> {
    if offerId in db.offers then Ok(db.offers[offerId]) else Err(MissingOffer(offerId))
  }

  function GetCommissionData(db: Db, commissionType: string): Result<int, Failure> {
    if commissionType in db.rates then Ok(db.rates[commissionType]) else Err(MissingRate(commissionType))
  }

  function GetAffiliateUserData(db: Db, referralCode: Option<string>): Option<AffiliateUser> {
    if referralCode in db.affiliates then Some(db.affiliates[referralCode]) else None
  }

  function GetUserSite(db: Db, code: Option<string>): Option<UserSite> {
    if code in db.sites then Some(db.sites[code]) else None
  }

  /** PHP truthiness of `$banner->offer_id`: null and 0 are false. */
  predicate HasOffer(banner: Banner) {
    banner.offerId.Some? && banner.offerId.value != 0
  }

  /** The row the `morphOne` relation `referred` resolves to. */
  predicate Owns(row: ReferrerRow, user: User) {
    row.userType == user.kind && row.userId == user.id
  }

  /** The first row owned by `user`, the one `$user->referred` loads. */
  function FirstOwned(rows: seq<ReferrerRow>, user: User): (r: Option<ReferrerRow>)
    ensures r.None? <==> forall i | 0 <= i < |rows| :: !Owns(rows[i], user)
    ensures r.Some? ==> exists i | 0 <= i < |rows| :: rows[i] == r.value && Owns(r.value, user)
                          && forall j | 0 <= j < i :: !Owns(rows[j], user)
  {
    if rows == [] then None
    else if Owns(rows[0], user) then Some(rows[0])
    else
      var r := FirstOwned(rows[1..], user);
      assert forall i | 1 <= i < |rows| :: rows[i] == rows[1..][i - 1];
      if r.Some? then
        var k :| 0 <= k < |rows[1..]| && rows[1..][k] == r.value && Owns(r.value, user)
                 && forall j | 0 <= j < k :: !Owns(rows[1..][j], user);
        assert rows[k + 1] == r.value;
        r
      else r
  }

  function Referred(db: Db, user: User): Option<ReferrerRow> {
    FirstOwned(db.referrers, user)
  }
}
