/**
 * The affiliate database as one object whose tables the bookkeeping of
 * src/CommissionTrait.php updates in place. Every method follows the PHP
 * statement by statement and is proved to leave the tables, the log and the
 * escaping throwable that the matching function of module Bookkeeping gives.
 */
module Store {
  import opened Wrappers
  import opened Tables
  import B = Bookkeeping

  class AffiliateStore {
    var banners: map<BannerId, BannerRow>
    var offers: map<OfferId, OfferCommission>
    var rates: map<string, int>
    var affiliates: map<Option<string>, AffiliateUser>
    var sites: map<Option<string>, UserSite>
    var wallets: map<UserId, Wallet>
    var histories: seq<HistoryRow>
    var referrers: seq<ReferrerRow>

    /** The tables as one value. */
    function Snapshot(): Db
      reads this
    {
      Db(banners, offers, rates, affiliates, sites, wallets, histories, referrers)
    }

    constructor (initial: Db)
      ensures Snapshot() == initial
    {
      banners, offers, rates := initial.banners, initial.offers, initial.rates;
      affiliates, sites, wallets := initial.affiliates, initial.sites, initial.wallets;
      histories, referrers := initial.histories, initial.referrers;
    }

    /** Lines 85-94. */
    method IncrementWalletBalance(userId: UserId, wallet: B.WalletRef, amount: int) returns (log: seq<Failure>)
      modifies this`wallets
      ensures B.Step(Snapshot(), log, None) == B.IncrementWalletBalance(old(Snapshot()), userId, wallet, amount)
    {
      match wallet
      case WalletRow(w) =>
        if userId in wallets {
          wallets := wallets[userId := wallets[userId].(balance := w.balance + amount)];
        }
        log := [];
      case InsertResult(_) =>
        // `$wallet->balance` on a boolean throws; the catch logs it and nothing is written
        log := [BalanceOfInsertResult];
    }

    /** Lines 57-77. */
    method FindOrCreateAffiliateUserWallet(userId: UserId, increment: bool, amount: int)
      returns (wallet: B.WalletRef, log: seq<Failure>)
      modifies this`wallets
      ensures (wallet, B.Step(Snapshot(), log, None))
              == B.FindOrCreateAffiliateUserWallet(old(Snapshot()), userId, increment, amount)
    {
      if userId in wallets {
        wallet := B.WalletRow(wallets[userId]);
      } else {
        wallets := wallets[userId := Wallet(0, 0)];
        wallet := B.InsertResult(true);
      }
      log := [];
      if increment {
        log := IncrementWalletBalance(userId, wallet, amount);
      }
    }

    /** Lines 104-122. */
    method InsertCommissionInfo(userId: UserId, commissionType: string, banner: Option<Banner>, extra: ExtraInfo)
      returns (log: seq<Failure>, escaped: Option<Failure>)
      modifies this`wallets, this`histories
      ensures B.Step(Snapshot(), log, escaped)
              == B.InsertCommissionInfo(old(Snapshot()), userId, commissionType, banner, extra)
    {
      log := [];
      match GetCommissionData(Snapshot(), commissionType) {
        case Ok(rate) =>
          histories := histories + [HistoryRow(userId,
                                               if banner.Some? then Some(banner.value.id) else None,
                                               if banner.Some? then Some("banner") else None,
                                               rate, commissionType, extra)];
        case Err(e) =>
          log := [e];
      }
      var amount := B.CreditAmount(Snapshot(), commissionType, banner);
      if amount.Err? {
        escaped := Some(amount.error);
        return;
      }
      var _, walletLog := FindOrCreateAffiliateUserWallet(userId, true, amount.value);
      log, escaped := log + walletLog, None;
    }

    /** Lines 131-143. */
    method BannerRegistrationCommission(commissionType: string, userType: string,
                                        requestUser: Option<User>, fallback: Option<User>)
      returns (log: seq<Failure>, escaped: Option<Failure>)
      modifies this`wallets, this`histories
      ensures B.Step(Snapshot(), log, escaped)
              == B.BannerRegistrationCommission(old(Snapshot()), commissionType, userType, requestUser, fallback)
    {
      log, escaped := [], None;
      var user := B.ActingUser(requestUser, fallback);
      if user.None? {
        escaped := Some(NoUser);
        return;
      }
      var referred := Referred(Snapshot(), user.value);
      if referred.Some? {
        var rec := referred.value;
        var affiliate := GetAffiliateUserData(Snapshot(), rec.referrer);
        var domain := GetUserSite(Snapshot(), rec.host);
        if B.DomainGate(domain, affiliate) {
          if rec.info.None? {
            escaped := Some(InfoNotJson);
            return;
          }
          var extra := ExtraInfo(user.value.name, userType);
          log, escaped := InsertCommissionInfo(affiliate.value.id, commissionType,
                                               GetBannerData(Snapshot(), rec.info.value), extra);
        }
      }
    }

    /** Lines 152-162. */
    method DirectRegistrationCommission(commissionType: string, userType: string,
                                        requestUser: Option<User>, fallback: Option<User>)
      returns (log: seq<Failure>, escaped: Option<Failure>)
      modifies this`wallets, this`histories
      ensures B.Step(Snapshot(), log, escaped)
              == B.DirectRegistrationCommission(old(Snapshot()), commissionType, userType, requestUser, fallback)
    {
      log, escaped := [], None;
      var user := B.ActingUser(requestUser, fallback);
      if user.None? {
        escaped := Some(NoUser);
        return;
      }
      var referred := Referred(Snapshot(), user.value);
      if referred.Some? {
        var affiliate := GetAffiliateUserData(Snapshot(), referred.value.referrer);
        if affiliate.Some? {
          var extra := ExtraInfo(user.value.name, userType);
          log, escaped := InsertCommissionInfo(affiliate.value.id, commissionType, None, extra);
        }
      }
    }

    /** Lines 211-220. */
    method GiveCommission(userData: User, userType: string, requestUser: Option<User>)
      returns (log: seq<Failure>, escaped: Option<Failure>)
      modifies this`wallets, this`histories
      ensures B.Step(Snapshot(), log, escaped) == B.GiveCommission(old(Snapshot()), userData, userType, requestUser)
    {
      var referred := Referred(Snapshot(), userData);
      if referred.None? {
        // `$userData->referred->info` on null throws; the catch logs it
        log, escaped := [NoReferrerRecord], None;
        return;
      }
      var commissionType := B.CommissionType(userType, referred.value.info);
      if referred.value.info.Some? {
        log, escaped := BannerRegistrationCommission(commissionType, userType, requestUser, None);
      } else {
        log, escaped := DirectRegistrationCommission(commissionType, userType, requestUser, None);
      }
      if escaped.Some? && IsException(escaped.value) {
        log, escaped := log + [escaped.value], None;
      }
    }

    /** Lines 168-202. */
    method StoreReferrerData(userData: User, req: B.Request) returns (log: seq<Failure>)
      modifies this`referrers
      ensures B.Step(Snapshot(), log, None) == B.StoreReferrerData(old(Snapshot()), userData, req)
    {
      var commission: Option<int> := None;
      var info: Option<BannerId> := None;
      var referrer: Option<string> := None;
      if req.b != Some("null") {
        var banner := B.CapturedBanner(Snapshot(), req);
        if banner.None? {
          return [MissingBanner];
        }
        if HasOffer(banner.value) {
          var offer := FindBannerOfferCommission(Snapshot(), banner.value.offerId.value);
          if offer.Err? {
            return [offer.error];
          }
          if !offer.value.Structured? {
            return [OfferWithoutUserCommission];
          }
          commission := Some(offer.value.userCommission);
        }
        info := Some(banner.value.id);
      }
      if req.u != Some("null") {
        referrer := req.u;
      } else if req.referrerCode != Some("null") {
        referrer := req.referrerCode;
      }
      referrers := referrers + [ReferrerRow(userData.id, userData.kind, referrer, req.h, commission, info)];
      log := [];
    }
  }
}
