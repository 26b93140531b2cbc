/**
 * Properties of the commission bookkeeping that relate several calls, or a
 * call to the tables it reads.
 */
module Properties {
  import opened Wrappers
  import opened Tables
  import opened Bookkeeping

  /** Different user types or different paths never share a commission type. */
  lemma CommissionTypeInjective(userType1: string, info1: Option<BannerId>, userType2: string, info2: Option<BannerId>)
    requires CommissionType(userType1, info1) == CommissionType(userType2, info2)
    ensures userType1 == userType2 && info1.Some? == info2.Some?
  {
    var t := CommissionType(userType1, info1);
    assert |userType1| == |userType2|;
    assert userType1 == t[..|userType1|] == userType2;
  }

  /** A row appended to `referrers` is found by `referred` only when no earlier row is. */
  lemma {:induction false} FirstOwnedAppend(rows: seq<ReferrerRow>, row: ReferrerRow, user: User)
    ensures FirstOwned(rows + [row], user)
            == if FirstOwned(rows, user).Some? then FirstOwned(rows, user)
               else if Owns(row, user) then Some(row) else None
  {
    if rows != [] {
      assert (rows + [row])[1..] == rows[1..] + [row];
      FirstOwnedAppend(rows[1..], row, user);
    }
  }

  /**
   * After a capture for a user with no record, `referred` yields the new row;
   * a user who already had one keeps the earlier row; nobody else is affected.
   */
  lemma CaptureIsReferred(db: Db, userData: User, req: Request, other: User)
    requires StoreReferrerData(db, userData, req).log == []
    ensures var db' := StoreReferrerData(db, userData, req).db;
            && (Referred(db, userData).None? ==> Referred(db', userData) == Some(db'.referrers[|db.referrers|]))
            && (Referred(db, userData).Some? ==> Referred(db', userData) == Referred(db, userData))
            && (other.kind != userData.kind || other.id != userData.id ==> Referred(db', other) == Referred(db, other))
  {
    var db' := StoreReferrerData(db, userData, req).db;
    var row := db'.referrers[|db.referrers|];
    assert db'.referrers == db.referrers + [row];
    FirstOwnedAppend(db.referrers, row, userData);
    FirstOwnedAppend(db.referrers, row, other);
  }

  /**
   * A user captured with no banner and a known referrer code, then granted
   * its registration commission, pays the affiliate the direct rate once.
   */
  lemma DirectCaptureThenGrant(db: Db, user: User, req: Request, userType: string)
    requires Referred(db, user).None?
    requires req.b == Some("null")
    requires GetAffiliateUserData(db, ResolveReferrer(req.u, req.referrerCode)).Some?
    requires userType + DirectSuffix in db.rates
    ensures var captured := StoreReferrerData(db, user, req).db;
            var granted := GiveCommission(captured, user, userType, Some(user));
            var affiliate := GetAffiliateUserData(db, ResolveReferrer(req.u, req.referrerCode)).value;
            var rate := db.rates[userType + DirectSuffix];
            && granted.escaped == None
            && granted.db.histories == captured.histories
                 + [HistoryRow(affiliate.id, None, None, rate, userType + DirectSuffix, ExtraInfo(user.name, userType))]
            && (affiliate.id in db.wallets ==>
                  granted.db.wallets[affiliate.id].balance == db.wallets[affiliate.id].balance + rate)
  {
    var captured := StoreReferrerData(db, user, req).db;
    CaptureIsReferred(db, user, req, user);
    var rec := Referred(captured, user).value;
    assert rec.info == None && rec.referrer == ResolveReferrer(req.u, req.referrerCode);
    assert CommissionType(userType, rec.info) == userType + DirectSuffix;
  }

  /**
   * A user captured from a banner without offer, on an approved and verified
   * host, pays the affiliate the banner rate once, with the banner as source.
   */
  lemma BannerCaptureThenGrant(db: Db, user: User, req: Request, userType: string)
    requires Referred(db, user).None?
    requires req.b.Some? && req.b != Some("null") && req.bannerId.Some?
    requires req.bannerId.value in db.banners
    requires !HasOffer(GetBannerData(db, req.bannerId.value).value)
    requires DomainGate(GetUserSite(db, req.h), GetAffiliateUserData(db, ResolveReferrer(req.u, req.referrerCode)))
    requires userType + BannerSuffix in db.rates
    ensures var captured := StoreReferrerData(db, user, req).db;
            var granted := GiveCommission(captured, user, userType, Some(user));
            var affiliate := GetAffiliateUserData(db, ResolveReferrer(req.u, req.referrerCode)).value;
            var rate := db.rates[userType + BannerSuffix];
            && granted.escaped == None
            && granted.db.histories == captured.histories
                 + [HistoryRow(affiliate.id, req.bannerId, Some("banner"), rate, userType + BannerSuffix,
                               ExtraInfo(user.name, userType))]
            && (affiliate.id in db.wallets ==>
                  granted.db.wallets[affiliate.id].balance == db.wallets[affiliate.id].balance + rate)
  {
    var captured := StoreReferrerData(db, user, req).db;
    CaptureIsReferred(db, user, req, user);
    var rec := Referred(captured, user).value;
    assert rec.info == req.bannerId && rec.host == req.h;
    assert rec.referrer == ResolveReferrer(req.u, req.referrerCode);
    assert CommissionType(userType, rec.info) == userType + BannerSuffix;
    assert BannerGateOpen(captured, user);
    assert GetBannerData(captured, rec.info.value) == GetBannerData(db, req.bannerId.value);
  }

  /**
   * On a banner record, with a known affiliate and a rate, a history row is
   * written exactly when the domain gate passes.
   */
  lemma BannerGrantIffGate(db: Db, userData: User, userType: string)
    requires Referred(db, userData).Some? && Referred(db, userData).value.info.Some?
    requires GetAffiliateUserData(db, Referred(db, userData).value.referrer).Some?
    requires userType + BannerSuffix in db.rates
    ensures var rec := Referred(db, userData).value;
            var s := GiveCommission(db, userData, userType, Some(userData));
            (|s.db.histories| == |db.histories| + 1) <==> DomainGate(GetUserSite(db, rec.host), GetAffiliateUserData(db, rec.referrer))
    ensures var rec := Referred(db, userData).value;
            !DomainGate(GetUserSite(db, rec.host), GetAffiliateUserData(db, rec.referrer)) ==>
              GiveCommission(db, userData, userType, Some(userData)) == Step(db, [], None)
  {
    var rec := Referred(db, userData).value;
    assert CommissionType(userType, rec.info) == userType + BannerSuffix;
  }

  /**
   * The commission type follows `$userData`'s record, but the path pays out of
   * the request user's record: a request user without one gets nothing
   * written, and no request user at all is a logged failure.
   */
  lemma PathReadsRequestUser(db: Db, userData: User, userType: string, requestUser: Option<User>)
    requires Referred(db, userData).Some?
    ensures requestUser.None? ==> GiveCommission(db, userData, userType, requestUser) == Step(db, [NoUser], None)
    ensures requestUser.Some? && Referred(db, requestUser.value).None? ==>
              GiveCommission(db, userData, userType, requestUser) == Step(db, [], None)
  {
  }

  /** Without a banner, the commit reads only `commissions`, `wallets` and `aff_commission_histories`. */
  lemma InsertWithoutBannerFrame(db: Db, db2: Db, userId: UserId, commissionType: string, extra: ExtraInfo)
    requires db2.rates == db.rates && db2.wallets == db.wallets && db2.histories == db.histories
    ensures var s := InsertCommissionInfo(db, userId, commissionType, None, extra);
            InsertCommissionInfo(db2, userId, commissionType, None, extra)
            == s.(db := db2.(wallets := s.db.wallets, histories := s.db.histories))
  {
    var s := InsertCommissionInfo(db, userId, commissionType, None, extra);
    var s2 := InsertCommissionInfo(db2, userId, commissionType, None, extra);
    assert HistoryRowFor(db2, userId, commissionType, None, extra) == HistoryRowFor(db, userId, commissionType, None, extra);
    assert CreditAmount(db2, commissionType, None) == CreditAmount(db, commissionType, None);
    assert s2.db.histories == s.db.histories;
    assert s2.db.wallets.Keys == s.db.wallets.Keys;
    assert s2.db.wallets == s.db.wallets;
  }

  /** The direct path reads neither `banners`, `commission_offers` nor `user_sites`. */
  lemma DirectPathIgnoresBanners(db: Db, commissionType: string, userType: string, requestUser: Option<User>,
                                 fallback: Option<User>, banners: map<BannerId, BannerRow>,
                                 offers: map<OfferId, OfferCommission>, sites: map<Option<string>, UserSite>)
    ensures var s := DirectRegistrationCommission(db, commissionType, userType, requestUser, fallback);
            var s' := DirectRegistrationCommission(db.(banners := banners, offers := offers, sites := sites),
                                                   commissionType, userType, requestUser, fallback);
            s' == s.(db := s.db.(banners := banners, offers := offers, sites := sites))
  {
    var db' := db.(banners := banners, offers := offers, sites := sites);
    var user := ActingUser(requestUser, fallback);
    if user.Some? && Referred(db, user.value).Some? {
      var rec := Referred(db, user.value).value;
      assert Referred(db', user.value) == Referred(db, user.value);
      if GetAffiliateUserData(db, rec.referrer).Some? {
        var affiliate := GetAffiliateUserData(db, rec.referrer).value;
        InsertWithoutBannerFrame(db, db', affiliate.id, commissionType, ExtraInfo(user.value.name, userType));
      }
    }
  }

  /**
   * The history row always records the rate, while the wallet is credited
   * with the offer's amount when the banner has an offer: the two agree
   * without an offer and differ whenever the offer's amount differs.
   */
  lemma CreditVersusHistory(db: Db, userId: UserId, commissionType: string, banner: Option<Banner>, extra: ExtraInfo)
    requires commissionType in db.rates && userId in db.wallets
    requires CreditAmount(db, commissionType, banner).Ok?
    ensures var s := InsertCommissionInfo(db, userId, commissionType, banner, extra);
            var row := s.db.histories[|db.histories|];
            var credited := s.db.wallets[userId].balance - db.wallets[userId].balance;
            && row.commission == db.rates[commissionType]
            && credited == if banner.Some? && HasOffer(banner.value)
                           then db.offers[banner.value.offerId.value].amount
                           else row.commission
  {
  }

  /** Without an offer, a missing rate aborts both the history row and the credit. */
  lemma MissingRateAbortsBoth(db: Db, userData: User, userType: string)
    requires Referred(db, userData).Some? && Referred(db, userData).value.info.None?
    requires GetAffiliateUserData(db, Referred(db, userData).value.referrer).Some?
    requires userType + DirectSuffix !in db.rates
    ensures GiveCommission(db, userData, userType, Some(userData))
            == Step(db, [MissingRate(userType + DirectSuffix), MissingRate(userType + DirectSuffix)], None)
  {
    assert CommissionType(userType, None) == userType + DirectSuffix;
  }

  /** With an offer, the credit still happens when the history row could not be written. */
  lemma CreditDespiteHistoryFailure(db: Db, userId: UserId, commissionType: string, banner: Banner, extra: ExtraInfo)
    requires commissionType !in db.rates && userId in db.wallets
    requires HasOffer(banner) && banner.offerId.value in db.offers && db.offers[banner.offerId.value].Amount?
    ensures var s := InsertCommissionInfo(db, userId, commissionType, Some(banner), extra);
            && s.db.histories == db.histories
            && s.db.wallets[userId].balance == db.wallets[userId].balance + db.offers[banner.offerId.value].amount
            && s.log == [MissingRate(commissionType)]
  {
  }

  /**
   * The first commission to an affiliate without a wallet creates it and
   * loses the credit; the next one is credited to the wallet it created.
   */
  lemma FirstCreditLostSecondKept(db: Db, userId: UserId, commissionType: string, extra: ExtraInfo)
    requires userId !in db.wallets && commissionType in db.rates
    ensures var first := InsertCommissionInfo(db, userId, commissionType, None, extra);
            var second := InsertCommissionInfo(first.db, userId, commissionType, None, extra);
            && first.db.wallets[userId] == Wallet(0, 0)
            && first.log == [BalanceOfInsertResult]
            && second.db.wallets[userId] == Wallet(db.rates[commissionType], 0)
            && second.log == []
            && |second.db.histories| == |db.histories| + 2
  {
    var first := InsertCommissionInfo(db, userId, commissionType, None, extra);
    assert first.db.rates == db.rates;
    assert CreditAmount(first.db, commissionType, None) == Ok(db.rates[commissionType]);
  }

  /**
   * No value of an offer's `commission` serves both of its readers: either the
   * capture fails reading `user_commission`, or the credit throws a TypeError
   * that escapes giveCommission's catch.
   */
  lemma OfferShapeConflict(db: Db, userData: User, req: Request, userId: UserId, commissionType: string, extra: ExtraInfo)
    requires req.b != Some("null") && CapturedBanner(db, req).Some?
    requires HasOffer(CapturedBanner(db, req).value)
    requires CapturedBanner(db, req).value.offerId.value in db.offers
    ensures || StoreReferrerData(db, userData, req).log == [OfferWithoutUserCommission]
            || InsertCommissionInfo(db, userId, commissionType, CapturedBanner(db, req), extra).escaped == Some(AmountNotInteger)
    ensures !IsException(AmountNotInteger)
  {
  }

  /**
   * An offer whose `commission` is text that is not a number fails both
   * readers: the capture logs the failed `user_commission` read, and the
   * credit throws the TypeError after the history row is written.
   */
  lemma TextOfferFailsBoth(db: Db, userData: User, req: Request, userId: UserId, commissionType: string, extra: ExtraInfo)
    requires req.b != Some("null") && CapturedBanner(db, req).Some?
    requires HasOffer(CapturedBanner(db, req).value)
    requires CapturedBanner(db, req).value.offerId.value in db.offers
    requires db.offers[CapturedBanner(db, req).value.offerId.value].Text?
    ensures StoreReferrerData(db, userData, req) == Step(db, [OfferWithoutUserCommission], None)
    ensures var s := InsertCommissionInfo(db, userId, commissionType, CapturedBanner(db, req), extra);
            && s.escaped == Some(AmountNotInteger)
            && s.db.wallets == db.wallets
  {
  }

  /** The worked example: banner 7 without offer, rate 50, a wallet holding 100, host `shop` approved. */
  function ExampleDb(verified: bool): Db {
    Db(map[7 := BannerRow(None)], map[], map["seller-banner-registration" := 50],
       map[Some("AFF") := AffiliateUser(9)], map[Some("shop") := UserSite("approved", verified)],
       map[9 := Wallet(100, 5)], [], [ReferrerRow(1, "Seller", Some("AFF"), Some("shop"), None, Some(7))])
  }

  /** On an unverified host nothing is written. */
  lemma ExampleUnverifiedHost()
    ensures GiveCommission(ExampleDb(false), User("Seller", 1, "Ann"), "seller", Some(User("Seller", 1, "Ann")))
            == Step(ExampleDb(false), [], None)
  {
    var db := ExampleDb(false);
    var user := User("Seller", 1, "Ann");
    assert Referred(db, user) == Some(db.referrers[0]);
    assert !BannerGateOpen(db, user);
  }

  /** The commit of the worked example: one row of 50 from banner 7, and the wallet goes from 100 to 150. */
  lemma ExampleCommit(name: string)
    ensures var s := InsertCommissionInfo(ExampleDb(true), 9, "seller-banner-registration", Some(Banner(7, None)),
                                          ExtraInfo(name, "seller"));
            && s.escaped == None
            && s.db.histories == [HistoryRow(9, Some(7), Some("banner"), 50, "seller-banner-registration",
                                             ExtraInfo(name, "seller"))]
            && s.db.wallets == map[9 := Wallet(150, 5)]
  {
    var db := ExampleDb(true);
    assert CreditAmount(db, "seller-banner-registration", Some(Banner(7, None))) == Ok(50);
    var s := InsertCommissionInfo(db, 9, "seller-banner-registration", Some(Banner(7, None)), ExtraInfo(name, "seller"));
    assert s.db.wallets.Keys == {9};
    assert s.db.wallets[9] == Wallet(150, 5);
  }

  /** The banner-path commission type of a `seller`. */
  lemma SellerBannerType()
    ensures CommissionType("seller", Some(7)) == "seller-banner-registration"
  {
    assert "seller" + BannerSuffix == "seller-banner-registration";
  }

  /** The referrer row of the worked example belongs to user 1 of type `Seller`, whatever the user's name. */
  lemma ExampleReferred(name: string)
    ensures Referred(ExampleDb(true), User("Seller", 1, name))
            == Some(ReferrerRow(1, "Seller", Some("AFF"), Some("shop"), None, Some(7)))
  {
    var db := ExampleDb(true);
    assert Owns(db.referrers[0], User("Seller", 1, name));
  }

  /** The banner path of the worked example reaches the commit for affiliate 9 and banner 7. */
  lemma ExampleBannerPath(name: string)
    ensures BannerRegistrationCommission(ExampleDb(true), "seller-banner-registration", "seller",
                                         Some(User("Seller", 1, name)), None)
            == InsertCommissionInfo(ExampleDb(true), 9, "seller-banner-registration", Some(Banner(7, None)),
                                    ExtraInfo(name, "seller"))
  {
    var db := ExampleDb(true);
    ExampleReferred(name);
    assert GetAffiliateUserData(db, Some("AFF")) == Some(AffiliateUser(9));
    assert GetUserSite(db, Some("shop")) == Some(UserSite("approved", true));
    assert GetBannerData(db, 7) == Some(Banner(7, None));
  }

  /** When the banner path raises nothing, `giveCommission` (lines 213-219) returns its step unchanged: no catch runs. */
  lemma GiveForwardsBannerPath(db: Db, userData: User, userType: string, requestUser: Option<User>, rec: ReferrerRow)
    requires Referred(db, userData) == Some(rec) && rec.info.Some?
    requires BannerRegistrationCommission(db, CommissionType(userType, rec.info), userType, requestUser, None).escaped == None
    ensures GiveCommission(db, userData, userType, requestUser)
            == BannerRegistrationCommission(db, CommissionType(userType, rec.info), userType, requestUser, None)
  {
  }

  /** With the host verified, the commission of the worked example is exactly the banner path's commit. */
  lemma ExampleGive(name: string)
    ensures GiveCommission(ExampleDb(true), User("Seller", 1, name), "seller", Some(User("Seller", 1, name)))
            == InsertCommissionInfo(ExampleDb(true), 9, "seller-banner-registration", Some(Banner(7, None)),
                                    ExtraInfo(name, "seller"))
  {
    var db := ExampleDb(true);
    var user := User("Seller", 1, name);
    var rec := ReferrerRow(1, "Seller", Some("AFF"), Some("shop"), None, Some(7));
    ExampleReferred(name);
    SellerBannerType();
    ExampleBannerPath(name);
    ExampleCommit(name);
    GiveForwardsBannerPath(db, user, "seller", Some(user), rec);
  }

  /** On a verified host one history row of 50 is written and the wallet goes from 100 to 150. */
  lemma ExampleVerifiedHost(name: string)
    ensures var s := GiveCommission(ExampleDb(true), User("Seller", 1, name), "seller", Some(User("Seller", 1, name)));
            && s.db.histories == [HistoryRow(9, Some(7), Some("banner"), 50, "seller-banner-registration",
                                             ExtraInfo(name, "seller"))]
            && s.db.wallets == map[9 := Wallet(150, 5)]
  {
    ExampleGive(name);
    ExampleCommit(name);
  }
}
