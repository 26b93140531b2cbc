/**
 * The commission bookkeeping of src/CommissionTrait.php as functions over a
 * database value. Each function returns the database it leaves, the errors it
 * logged (`Log::error`, in order) and the throwable that escapes it, if any.
 * The class in module Store performs the same steps in place and is proved
 * against these functions.
 */
module Bookkeeping {
  import opened Wrappers
  import opened Tables

  /** What an operation leaves behind. */
  datatype Step = Step(db: Db, log: seq<Failure>, escaped: Option<Failure>)

  /** What `$wallet` holds: a fetched `wallets` row, or the boolean that `insert` returned. */
  datatype WalletRef = WalletRow(wallet: Wallet) | InsertResult(inserted: bool)

  /**
   * The request values that the referrer capture reads; None stands for a
   * parameter that was not sent (PHP null). `bannerId` is the id that
   * `base64_decode(b)` names, None when it names none.
   */
  datatype Request = Request(
    b: Option<string>,
    bannerId: Option<BannerId>,
    u: Option<string>,
    referrerCode: Option<string>,
    h: Option<string>)

  const BannerSuffix: string := "-banner-registration"
  const DirectSuffix: string := "-direct-registration"

  /** Only the `wallets` table may differ between `db` and `db'`. */
  predicate OnlyWalletsChanged(db: Db, db': Db) {
    db' == db.(wallets := db'.wallets)
  }

  /** Only `wallets` and `aff_commission_histories` may differ. */
  predicate OnlyLedgerChanged(db: Db, db': Db) {
    db' == db.(wallets := db'.wallets, histories := db'.histories)
  }

  /** `$type` and `$commission_type` of giveCommission (lines 214-215). */
  function CommissionType(userType: string, info: Option<BannerId>): (t: string)
    ensures |t| == |userType| + |BannerSuffix|
    ensures t[..|userType|] == userType
    ensures t[|userType|..] == BannerSuffix <==> info.Some?
    ensures t[|userType|..] == DirectSuffix <==> info.None?
  {
    userType + (if info.Some? then BannerSuffix else DirectSuffix)
  }

  /** The domain gate of the banner path (line 137). */
  predicate DomainGate(domain: Option<UserSite>, affiliate: Option<AffiliateUser>) {
    domain.Some? && domain.value.status == "approved" && affiliate.Some? && domain.value.verified
  }

  /** `request()->user() ?? $user` (lines 133 and 154). */
  function ActingUser(requestUser: Option<User>, fallback: Option<User>): Option<User> {
    if requestUser.Some? then requestUser else fallback
  }

  /** The referrer a capture records (lines 184-190); only the literal "null" counts as no value. */
  function ResolveReferrer(u: Option<string>, referrerCode: Option<string>): (r: Option<string>)
    ensures r != Some("null")
    ensures u != Some("null") ==> r == u
    ensures r != u ==> u == Some("null") && r == (if referrerCode == Some("null") then None else referrerCode)
  {
    if u != Some("null") then u
    else if referrerCode != Some("null") then referrerCode
    else None
  }

  /** Lines 85-94: write `$wallet->balance + $amount` into the user's wallet. */
  function IncrementWalletBalance(db: Db, userId: UserId, wallet: WalletRef, amount: int): (s: Step)
    ensures s.escaped == None && OnlyWalletsChanged(db, s.db)
    ensures s.db.wallets.Keys == db.wallets.Keys
    ensures forall id | id in db.wallets && id != userId :: s.db.wallets[id] == db.wallets[id]
    ensures wallet.InsertResult? ==> s.db == db && s.log == [BalanceOfInsertResult]
    ensures wallet.WalletRow? ==> s.log == []
    ensures wallet.WalletRow? && userId in db.wallets ==>
              s.db.wallets[userId] == Wallet(wallet.wallet.balance + amount, db.wallets[userId].otherBalance)
  {
    match wallet
    case WalletRow(w) =>
      var wallets := if userId in db.wallets
                     then db.wallets[userId := db.wallets[userId].(balance := w.balance + amount)]
                     else db.wallets;
      Step(db.(wallets := wallets), [], None)
    case InsertResult(_) =>
      Step(db, [BalanceOfInsertResult], None)
  }

  /** Lines 57-77: fetch the wallet or create it with zero balances, then credit it. */
  function FindOrCreateAffiliateUserWallet(db: Db, userId: UserId, increment: bool, amount: int): (r: (WalletRef, Step))
    ensures r.1.escaped == None && OnlyWalletsChanged(db, r.1.db)
    ensures r.1.db.wallets.Keys == db.wallets.Keys + {userId}
    ensures forall id | id in db.wallets && id != userId :: r.1.db.wallets[id] == db.wallets[id]
    ensures userId in db.wallets ==>
              && r.0 == WalletRow(db.wallets[userId])
              && r.1.log == []
              && r.1.db.wallets[userId] == if increment
                                           then db.wallets[userId].(balance := db.wallets[userId].balance + amount)
                                           else db.wallets[userId]
    ensures userId !in db.wallets ==>
              && r.0 == InsertResult(true)
              && r.1.db.wallets[userId] == Wallet(0, 0)
              && r.1.log == if increment then [BalanceOfInsertResult] else []
  {
    var (db1, wallet) := if userId in db.wallets then (db, WalletRow(db.wallets[userId]))
                         else (db.(wallets := db.wallets[userId := Wallet(0, 0)]), InsertResult(true));
    var s := if increment then IncrementWalletBalance(db1, userId, wallet, amount) else Step(db1, [], None);
    (wallet, s)
  }

  /** The third argument of line 120: the offer's commission when the banner has an offer, else the rate. */
  function CreditAmount(db: Db, commissionType: string, banner: Option<Banner>): (r: Result<int, Failure>)
    ensures banner.Some? && HasOffer(banner.value) ==>
              var offerId := banner.value.offerId.value;
              && (r.Ok? <==> offerId in db.offers && db.offers[offerId].Amount?)
              && (r.Ok? ==> r.value == db.offers[offerId].amount)
              && (r.Err? ==> r.error == if offerId in db.offers then AmountNotInteger else MissingOffer(offerId))
    ensures !(banner.Some? && HasOffer(banner.value)) ==>
              && (r.Ok? <==> commissionType in db.rates)
              && (r.Ok? ==> r.value == db.rates[commissionType])
              && (r.Err? ==> r.error == MissingRate(commissionType))
  {
    if banner.Some? && HasOffer(banner.value) then
      match FindBannerOfferCommission(db, banner.value.offerId.value)
      case Err(e) => Err(e)
      case Ok(Amount(a)) => Ok(a)
      case Ok(Structured(_)) => Err(AmountNotInteger)
      case Ok(Text(_)) => Err(AmountNotInteger)
    else
      GetCommissionData(db, commissionType)
  }

  /** The row that lines 107-116 insert; its `commission` is always the rate. */
  function HistoryRowFor(db: Db, userId: UserId, commissionType: string, banner: Option<Banner>, extra: ExtraInfo)
    : Result<HistoryRow, Failure>
  {
    match GetCommissionData(db, commissionType)
    case Err(e) => Err(e)
    case Ok(rate) =>
      Ok(HistoryRow(userId,
                    if banner.Some? then Some(banner.value.id) else None,
                    if banner.Some? then Some("banner") else None,
                    rate, commissionType, extra))
  }

  /** Lines 104-122: append a history row (failure logged), then credit the wallet (failure thrown). */
  function InsertCommissionInfo(db: Db, userId: UserId, commissionType: string, banner: Option<Banner>, extra: ExtraInfo)
    : (s: Step)
    ensures OnlyLedgerChanged(db, s.db)
    ensures s.db.histories == db.histories +
              if commissionType in db.rates
              then [HistoryRow(userId,
                               if banner.Some? then Some(banner.value.id) else None,
                               if banner.Some? then Some("banner") else None,
                               db.rates[commissionType], commissionType, extra)]
              else []
    ensures CreditAmount(db, commissionType, banner).Err? ==>
              s.db.wallets == db.wallets && s.escaped == Some(CreditAmount(db, commissionType, banner).error)
    ensures CreditAmount(db, commissionType, banner).Ok? ==>
              var amount := CreditAmount(db, commissionType, banner).value;
              && s.escaped == None
              && s.db.wallets.Keys == db.wallets.Keys + {userId}
              && (forall id | id in db.wallets && id != userId :: s.db.wallets[id] == db.wallets[id])
              && (userId in db.wallets ==>
                    s.db.wallets[userId] == db.wallets[userId].(balance := db.wallets[userId].balance + amount))
              && (userId !in db.wallets ==> s.db.wallets[userId] == Wallet(0, 0))
    ensures s.log == (if commissionType in db.rates then [] else [MissingRate(commissionType)])
                     + (if CreditAmount(db, commissionType, banner).Ok? && userId !in db.wallets
                        then [BalanceOfInsertResult] else [])
  {
    var history := HistoryRowFor(db, userId, commissionType, banner, extra);
    var db1 := if history.Ok? then db.(histories := db.histories + [history.value]) else db;
    var log1 := if history.Ok? then [] else [history.error];
    match CreditAmount(db1, commissionType, banner)
    case Err(e) => Step(db1, log1, Some(e))
    case Ok(amount) =>
      var (_, w) := FindOrCreateAffiliateUserWallet(db1, userId, true, amount);
      Step(w.db, log1 + w.log, w.escaped)
  }

  /** The banner-path gate (line 137) for the referrer record of `user`. */
  predicate BannerGateOpen(db: Db, user: User) {
    var rec := Referred(db, user);
    rec.Some? && DomainGate(GetUserSite(db, rec.value.host), GetAffiliateUserData(db, rec.value.referrer))
  }

  /** Lines 131-143. */
  function BannerRegistrationCommission(db: Db, commissionType: string, userType: string,
                                        requestUser: Option<User>, fallback: Option<User>): (s: Step)
    ensures OnlyLedgerChanged(db, s.db)
    ensures ActingUser(requestUser, fallback).None? ==> s == Step(db, [], Some(NoUser))
    ensures s.db != db ==> ActingUser(requestUser, fallback).Some? && BannerGateOpen(db, ActingUser(requestUser, fallback).value)
    ensures ActingUser(requestUser, fallback).Some? && !BannerGateOpen(db, ActingUser(requestUser, fallback).value) ==>
              s == Step(db, [], None)
  {
    var user := ActingUser(requestUser, fallback);
    if user.None? then Step(db, [], Some(NoUser))
    else
      match Referred(db, user.value)
      case None => Step(db, [], None)
      case Some(rec) =>
        var affiliate := GetAffiliateUserData(db, rec.referrer);
        var domain := GetUserSite(db, rec.host);
        if !DomainGate(domain, affiliate) then Step(db, [], None)
        else if rec.info.None? then Step(db, [], Some(InfoNotJson))
        else
          InsertCommissionInfo(db, affiliate.value.id, commissionType, GetBannerData(db, rec.info.value),
                               ExtraInfo(user.value.name, userType))
  }

  /** Lines 152-162. */
  function DirectRegistrationCommission(db: Db, commissionType: string, userType: string,
                                        requestUser: Option<User>, fallback: Option<User>): (s: Step)
    ensures OnlyLedgerChanged(db, s.db)
    ensures ActingUser(requestUser, fallback).None? ==> s == Step(db, [], Some(NoUser))
    ensures s.db != db ==>
              var user := ActingUser(requestUser, fallback);
              user.Some? && Referred(db, user.value).Some?
              && GetAffiliateUserData(db, Referred(db, user.value).value.referrer).Some?
  {
    var user := ActingUser(requestUser, fallback);
    if user.None? then Step(db, [], Some(NoUser))
    else
      match Referred(db, user.value)
      case None => Step(db, [], None)
      case Some(rec) =>
        match GetAffiliateUserData(db, rec.referrer)
        case None => Step(db, [], None)
        case Some(affiliate) =>
          InsertCommissionInfo(db, affiliate.id, commissionType, None, ExtraInfo(user.value.name, userType))
  }

  /**
   * Lines 211-220: classify by `$userData`'s record, then run the matching
   * path, which reads the request user's record; exceptions are logged.
   */
  function GiveCommission(db: Db, userData: User, userType: string, requestUser: Option<User>): (s: Step)
    ensures OnlyLedgerChanged(db, s.db)
    ensures s.escaped.Some? ==> !IsException(s.escaped.value)
    ensures Referred(db, userData).None? ==> s == Step(db, [NoReferrerRecord], None)
    ensures db.histories <= s.db.histories && |s.db.histories| <= |db.histories| + 1
  {
    match Referred(db, userData)
    case None => Step(db, [NoReferrerRecord], None)
    case Some(rec) =>
      var commissionType := CommissionType(userType, rec.info);
      var s := if rec.info.Some?
               then BannerRegistrationCommission(db, commissionType, userType, requestUser, None)
               else DirectRegistrationCommission(db, commissionType, userType, requestUser, None);
      if s.escaped.Some? && IsException(s.escaped.value) then Step(s.db, s.log + [s.escaped.value], None)
      else s
  }

  /** The banner that line 175 fetches for the token `b`. */
  function CapturedBanner(db: Db, req: Request): Option<Banner> {
    if req.b.Some? && req.bannerId.Some? then GetBannerData(db, req.bannerId.value) else None
  }

  /** Lines 174-183: the commission snapshot and the `info` payload, or the failure that aborts the capture. */
  function BannerSnapshot(db: Db, req: Request): Result<(Option<int>, Option<BannerId>), Failure> {
    if req.b == Some("null") then Ok((None, None))
    else
      match CapturedBanner(db, req)
      case None => Err(MissingBanner)
      case Some(banner) =>
        if HasOffer(banner) then
          match FindBannerOfferCommission(db, banner.offerId.value)
          case Err(e) => Err(e)
          case Ok(Structured(userCommission)) => Ok((Some(userCommission), Some(banner.id)))
          case Ok(Amount(_)) => Err(OfferWithoutUserCommission)
          case Ok(Text(_)) => Err(OfferWithoutUserCommission)
        else Ok((None, Some(banner.id)))
  }

  /** Lines 168-202: create one Referrer row for `userData`, or log why not. */
  function StoreReferrerData(db: Db, userData: User, req: Request): (s: Step)
    ensures s.escaped == None && s.db == db.(referrers := s.db.referrers)
    ensures req.b == Some("null") ==> s.log == []
    ensures req.b != Some("null") && CapturedBanner(db, req).None? ==> s.log == [MissingBanner]
    ensures req.b != Some("null") && CapturedBanner(db, req).Some? && HasOffer(CapturedBanner(db, req).value) ==>
              var offerId := CapturedBanner(db, req).value.offerId.value;
              && (offerId !in db.offers ==> s.log == [MissingOffer(offerId)])
              && (offerId in db.offers && !db.offers[offerId].Structured? ==> s.log == [OfferWithoutUserCommission])
    ensures s.log == [] <==>
              || req.b == Some("null")
              || (&& CapturedBanner(db, req).Some?
                  && (!HasOffer(CapturedBanner(db, req).value)
                      || (var offerId := CapturedBanner(db, req).value.offerId.value;
                          offerId in db.offers && db.offers[offerId].Structured?)))
    ensures s.log != [] ==> s.db == db && |s.log| == 1
    ensures s.log == [] ==>
              && |s.db.referrers| == |db.referrers| + 1
              && s.db.referrers[..|db.referrers|] == db.referrers
              && var row := s.db.referrers[|db.referrers|];
              && Owns(row, userData)
              && row.referrer == ResolveReferrer(req.u, req.referrerCode)
              && row.host == req.h
              && (row.info.Some? <==> req.b != Some("null"))
              && (row.info.Some? ==> CapturedBanner(db, req).Some? && CapturedBanner(db, req).value.id == row.info.value)
              && (row.commission.Some? <==> row.info.Some? && HasOffer(CapturedBanner(db, req).value))
              && (row.commission.Some? ==>
                    var offerId := CapturedBanner(db, req).value.offerId.value;
                    offerId in db.offers && db.offers[offerId] == Structured(row.commission.value))
  {
    match BannerSnapshot(db, req)
    case Err(e) => Step(db, [e], None)
    case Ok((commission, info)) =>
      var row := ReferrerRow(userData.id, userData.kind, ResolveReferrer(req.u, req.referrerCode), req.h, commission, info);
      Step(db.(referrers := db.referrers + [row]), [], None)
  }
}
