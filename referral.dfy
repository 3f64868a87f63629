// Referral codes (pos_next/pos_next/doctype/referral_code/referral_code.py):
// naming and validation of a Referral Code, and applying one, which issues a
// Gift Card to the referrer and a welcome coupon to the new customer.

module ReferralModel {
  import opened Common
  import opened CouponModel

  /** A Referral Code document. Unset numbers are `None` (or 0 days). */
  datatype ReferralCode = ReferralCode(
    name: string,
    referralName: string,
    referralCode: string,
    customer: string,
    company: string,
    campaign: string,
    disabled: bool,
    referralsCount: int,
    referrerDiscountType: string,
    referrerDiscountPercentage: Option<real>,
    referrerDiscountAmount: Option<real>,
    referrerMinAmount: Option<real>,
    referrerMaxAmount: Option<real>,
    referrerValidDays: int,
    refereeDiscountType: string,
    refereeDiscountPercentage: Option<real>,
    refereeDiscountAmount: Option<real>,
    refereeMinAmount: Option<real>,
    refereeMaxAmount: Option<real>,
    refereeValidDays: int)

  /** `autoname`: `hash1` and `hash2` are the two hashes it may draw. */
  function Autoname(r: ReferralCode, hash1: string, hash2: string): (d: ReferralCode)
    ensures d.name == d.referralName
    ensures r.referralName == "" ==> d.referralName == Strip(r.customer) + "-" + ToUpper(Take(hash1, 5))
    ensures r.referralName != "" ==> d.referralName == Strip(r.referralName)
    ensures r.referralCode != "" ==> d.referralCode == r.referralCode
    ensures r.referralCode == "" ==> d.referralCode == ToUpper(Take(hash2, 10))
    ensures d == r.(name := d.name, referralName := d.referralName, referralCode := d.referralCode)
  {
    var named := if r.referralName == "" then Strip(r.customer) + "-" + ToUpper(Take(hash1, 5)) else Strip(r.referralName);
    var r1 := r.(referralName := named, name := named);
    if r.referralCode == "" then r1.(referralCode := ToUpper(Take(hash2, 10))) else r1
  }

  /** A generated code has ten characters when the hash does, and no
      lower-case letter. */
  lemma AutonameCodeFacts(r: ReferralCode, hash1: string, hash2: string)
    requires r.referralCode == ""
    ensures var code := Autoname(r, hash1, hash2).referralCode;
      (|hash2| >= 10 ==> |code| == 10) && forall i :: 0 <= i < |code| ==> !('a' <= code[i] <= 'z')
    ensures r.referralName == "" && |hash1| >= 5 ==>
      var n := Autoname(r, hash1, hash2).name;
      |n| == |Strip(r.customer)| + 6 && n[..|Strip(r.customer)|] == Strip(r.customer) && n[|Strip(r.customer)|] == '-'
  {
  }

  /** The checks of one side of the reward; `who` is "Referrer" or
      "Referee". */
  function SideError(who: string, discountType: string, pct: Option<real>, amt: Option<real>): Option<string>
  {
    if discountType == "" then Some(who + " Discount Type is required")
    else if discountType == "Percentage" && OrNum(pct, 0.0) == 0.0 then Some(who + " Discount Percentage is required")
    else if discountType == "Percentage" && (Flt(pct) <= 0.0 || Flt(pct) > 100.0) then
      Some(who + " Discount Percentage must be between 0 and 100")
    else if discountType == "Amount" && OrNum(amt, 0.0) == 0.0 then Some(who + " Discount Amount is required")
    else if discountType == "Amount" && Flt(amt) <= 0.0 then Some(who + " Discount Amount must be greater than 0")
    else None
  }

  /** `flt(x)`. */
  function Flt(x: Option<real>): real
  {
    if x.Some? then x.value else 0.0
  }

  /** A side of the reward that passes its checks. */
  predicate SideValid(discountType: string, pct: Option<real>, amt: Option<real>)
  {
    discountType != "" &&
    (discountType == "Percentage" ==> 0.0 < Flt(pct) <= 100.0) &&
    (discountType == "Amount" ==> Flt(amt) > 0.0)
  }

  /** `validate`: the referrer's side is checked first. */
  function Validate(r: ReferralCode): Option<string>
  {
    var referrer := SideError("Referrer", r.referrerDiscountType, r.referrerDiscountPercentage, r.referrerDiscountAmount);
    if referrer.Some? then referrer
    else SideError("Referee", r.refereeDiscountType, r.refereeDiscountPercentage, r.refereeDiscountAmount)
  }

  lemma ValidateFacts(r: ReferralCode)
    ensures Validate(r).None? <==>
      SideValid(r.referrerDiscountType, r.referrerDiscountPercentage, r.referrerDiscountAmount) &&
      SideValid(r.refereeDiscountType, r.refereeDiscountPercentage, r.refereeDiscountAmount)
    ensures !SideValid(r.referrerDiscountType, r.referrerDiscountPercentage, r.referrerDiscountAmount) ==>
      Validate(r) == SideError("Referrer", r.referrerDiscountType, r.referrerDiscountPercentage, r.referrerDiscountAmount)
  {
  }

  /** `create_referral_code(...)`: `blank` is a new document with the
      doctype's defaults; `insert` names and validates it. */
  function CreateReferralCode(blank: ReferralCode, company: string, customer: string,
                              referrerType: string, referrerPct: Option<real>, referrerAmt: Option<real>,
                              refereeType: string, refereePct: Option<real>, refereeAmt: Option<real>,
                              campaign: string, hash1: string, hash2: string): Result<ReferralCode>
  {
    var r := blank.(company := company, customer := customer, campaign := campaign,
                    referrerDiscountType := referrerType, referrerDiscountPercentage := referrerPct,
                    referrerDiscountAmount := referrerAmt, refereeDiscountType := refereeType,
                    refereeDiscountPercentage := refereePct, refereeDiscountAmount := refereeAmt);
    var named := Autoname(r, hash1, hash2);
    var invalid := Validate(named);
    if invalid.Some? then Err(invalid.value) else Ok(named)
  }

  lemma CreateReferralCodeFacts(blank: ReferralCode, company: string, customer: string,
                                referrerType: string, referrerPct: Option<real>, referrerAmt: Option<real>,
                                refereeType: string, refereePct: Option<real>, refereeAmt: Option<real>,
                                campaign: string, hash1: string, hash2: string)
    ensures var res := CreateReferralCode(blank, company, customer, referrerType, referrerPct, referrerAmt,
                                          refereeType, refereePct, refereeAmt, campaign, hash1, hash2);
      res.Ok? <==> SideValid(referrerType, referrerPct, referrerAmt) && SideValid(refereeType, refereePct, refereeAmt)
    ensures var res := CreateReferralCode(blank, company, customer, referrerType, referrerPct, referrerAmt,
                                          refereeType, refereePct, refereeAmt, campaign, hash1, hash2);
      res.Ok? ==> res.value.company == company && res.value.customer == customer && res.value.campaign == campaign && (res.value.referralCode != "" <==> (blank.referralCode != "" || hash2 != []))
  {
    var r := blank.(company := company, customer := customer, campaign := campaign,
                    referrerDiscountType := referrerType, referrerDiscountPercentage := referrerPct,
                    referrerDiscountAmount := referrerAmt, refereeDiscountType := refereeType,
                    refereeDiscountPercentage := refereePct, refereeDiscountAmount := refereeAmt);
    ValidateFacts(Autoname(r, hash1, hash2));
  }

  // ----- the coupons a referral issues -----

  /** The last valid day of a coupon issued `today`. */
  function Expiry(today: int, days: int): int
  {
    today + ValidDays(days)
  }

  /** `valid_days or 30`. */
  function ValidDays(days: int): int
  {
    if days != 0 then days else 30
  }

  /** The discount part of a generated coupon. */
  function WithDiscount(c: Coupon, discountType: string, pct: Option<real>, amt: Option<real>,
                        minAmount: Option<real>, maxAmount: Option<real>): Coupon
  {
    c.(discountType := discountType,
       discountPercentage := if discountType == "Percentage" then Flt(pct) else 0.0,
       discountAmount := if discountType == "Amount" then Flt(amt) else 0.0,
       minAmount := OrNum(minAmount, 0.0), maxAmount := OrNum(maxAmount, 0.0), applyOn := "Grand Total")
  }

  /** The referrer's Gift Card before `insert`; `stamp` is the time as
      `%Y%m%d%H%M%S`. */
  function ReferrerDraft(r: ReferralCode, blank: Coupon, today: int, stamp: string): (d: Coupon)
    ensures d.couponType == GiftCard && d.customer == r.customer && d.maximumUse == 1 && d.oneUse
    ensures d.referralCode == r.name
    ensures d.validUpto == Some(Expiry(today, r.referrerValidDays))
  {
    WithDiscount(blank, r.referrerDiscountType, r.referrerDiscountPercentage, r.referrerDiscountAmount,
                 r.referrerMinAmount, r.referrerMaxAmount)
      .(couponName := "Referral Reward - " + r.customer + " - " + stamp, couponType := GiftCard,
        customer := r.customer, company := r.company, campaign := r.campaign, referralCode := r.name,
        validFrom := Some(today), validUpto := Some(Expiry(today, r.referrerValidDays)),
        maximumUse := 1, oneUse := true)
  }

  const WelcomePrefix := "Welcome Referral - "

  /** The referee's Promotional coupon before `insert`, as written: it sets
      no code, so `autoname` derives one from the name. */
  function RefereeDraftAsWritten(r: ReferralCode, referee: string, blank: Coupon, today: int, stamp: string): (d: Coupon)
    ensures d.couponType == Promotional && d.customer == referee && d.maximumUse == 1 && d.oneUse
    ensures d.referralCode == r.name
    ensures d.validUpto == Some(Expiry(today, r.refereeValidDays))
    ensures d.couponName == WelcomePrefix + referee + " - " + stamp && d.couponCode == blank.couponCode
  {
    WithDiscount(blank, r.refereeDiscountType, r.refereeDiscountPercentage, r.refereeDiscountAmount,
                 r.refereeMinAmount, r.refereeMaxAmount)
      .(couponName := WelcomePrefix + referee + " - " + stamp, couponType := Promotional,
        customer := referee, company := r.company, campaign := r.campaign, referralCode := r.name,
        validFrom := Some(today), validUpto := Some(Expiry(today, r.refereeValidDays)),
        maximumUse := 1, oneUse := true)
  }

  /** What a successful `insert` keeps of the draft it was given. */
  lemma InsertKeeps(c: Coupon, hash: string)
    ensures var res := Insert(c, hash);
      res.Ok? ==>
        res.value.couponType == c.couponType && res.value.customer == c.customer &&
        res.value.validUpto == c.validUpto && res.value.oneUse == c.oneUse &&
        res.value.referralCode == c.referralCode &&
        (c.maximumUse == 1 ==> res.value.maximumUse == 1) &&
        (c.couponCode != "" ==> res.value.couponCode == c.couponCode) &&
        (c.couponCode == "" && c.couponType == Promotional ==> res.value.couponCode == PromotionalCode(Strip(c.couponName)))
  {
    AutonameFacts(c, hash);
    InsertFacts(c, hash);
  }

  /** `generate_referrer_coupon`: a single-use Gift Card for the referrer. */
  function GenerateReferrerCoupon(r: ReferralCode, blank: Coupon, today: int, stamp: string, hash: string): (res: Result<Coupon>)
    ensures res.Ok? ==>
      res.value.couponType == GiftCard && res.value.customer == r.customer &&
      res.value.referralCode == r.name && res.value.maximumUse == 1 && res.value.oneUse &&
      res.value.validUpto == Some(Expiry(today, r.referrerValidDays))
  {
    var c := ReferrerDraft(r, blank, today, stamp);
    InsertKeeps(c, hash);
    Insert(c, hash)
  }

  /** `generate_referee_coupon` as written. */
  function GenerateRefereeCouponAsWritten(r: ReferralCode, referee: string, blank: Coupon, today: int,
                                          stamp: string, hash: string): (res: Result<Coupon>)
    ensures res.Ok? ==>
      res.value.couponType == Promotional && res.value.customer == referee &&
      res.value.referralCode == r.name && res.value.maximumUse == 1 && res.value.oneUse &&
      res.value.validUpto == Some(Expiry(today, r.refereeValidDays))
    ensures res.Ok? && blank.couponCode == "" ==>
      res.value.couponCode == PromotionalCode(Strip(WelcomePrefix + referee + " - " + stamp))
  {
    var c := RefereeDraftAsWritten(r, referee, blank, today, stamp);
    InsertKeeps(c, hash);
    Insert(c, hash)
  }

  /** `generate_referee_coupon` with a code drawn from a hash, as gift
      cards get: a single-use Promotional coupon for the referee. */
  function GenerateRefereeCoupon(r: ReferralCode, referee: string, blank: Coupon, today: int,
                                 stamp: string, hash: string): (res: Result<Coupon>)
    ensures res.Ok? ==>
      res.value.couponType == Promotional && res.value.customer == referee &&
      res.value.referralCode == r.name && res.value.maximumUse == 1 && res.value.oneUse &&
      res.value.validUpto == Some(Expiry(today, r.refereeValidDays)) &&
      (hash != [] ==> res.value.couponCode == ToUpper(Take(hash, 10)))
  {
    var c := RefereeDraftAsWritten(r, referee, blank, today, stamp).(couponCode := ToUpper(Take(hash, 10)));
    InsertKeeps(c, hash);
    Insert(c, hash)
  }

  predicate AllDigits(s: string)
  {
    forall i :: 0 <= i < |s| ==> IsDigit(s[i])
  }

  lemma {:induction false} NonDigitsOfClean(s: string)
    requires forall i :: 0 <= i < |s| ==> !IsDigit(s[i])
    ensures NonDigits(s) == s
  {
    if s != [] {
      NonDigitsOfClean(s[..|s| - 1]);
    }
  }

  /** Digit-free text at the front survives `NonDigits`. */
  lemma {:induction false} NonDigitsKeepsPrefix(p: string, s: string)
    requires forall i :: 0 <= i < |p| ==> !IsDigit(p[i])
    ensures |NonDigits(p + s)| >= |p| && NonDigits(p + s)[..|p|] == p
  {
    if s == [] {
      assert p + s == p;
      NonDigitsOfClean(p);
    } else {
      var s0 := s[..|s| - 1];
      NonDigitsKeepsPrefix(p, s0);
      assert (p + s)[..|p + s| - 1] == p + s0;
    }
  }

  /** As written every welcome coupon gets the code "WELCOME ", whoever
      the referee is: the first eight non-digit characters of its name. */
  lemma RefereeCodeAsWritten(r: ReferralCode, referee: string, blank: Coupon, today: int, stamp: string, hash: string)
    requires blank.couponCode == "" && |stamp| == 14 && AllDigits(stamp)
    ensures var res := GenerateRefereeCouponAsWritten(r, referee, blank, today, stamp, hash);
      res.Ok? ==> res.value.couponCode == "WELCOME "
  {
    WelcomeCode(WelcomePrefix + referee + " - " + stamp, referee, stamp);
  }

  /** The name of a welcome coupon strips to itself and yields "WELCOME ". */
  lemma WelcomeCode(name: string, referee: string, stamp: string)
    requires |stamp| == 14 && AllDigits(stamp) && name == WelcomePrefix + referee + " - " + stamp
    ensures PromotionalCode(Strip(name)) == "WELCOME "
  {
    var rest := referee + " - " + stamp;
    assert name == WelcomePrefix + rest;
    WelcomeStripped(name, referee, stamp);
    WelcomePromotional(rest);
  }

  /** A welcome coupon's name has no surrounding blanks. */
  lemma WelcomeStripped(name: string, referee: string, stamp: string)
    requires |stamp| == 14 && AllDigits(stamp) && name == WelcomePrefix + referee + " - " + stamp
    ensures Strip(name) == name
  {
    assert name[0] == 'W';
    assert name[|name| - 1] == stamp[13];
    StripFacts(name);
  }

  /** Whatever follows the welcome prefix, the derived code is "WELCOME ". */
  lemma WelcomePromotional(rest: string)
    ensures PromotionalCode(WelcomePrefix + rest) == "WELCOME "
  {
    WelcomePrefixFacts();
    LeadingCode(WelcomePrefix, rest);
  }

  lemma WelcomePrefixFacts()
    ensures |WelcomePrefix| >= 8 && forall i :: 0 <= i < |WelcomePrefix| ==> !IsDigit(WelcomePrefix[i])
    ensures ToUpper(WelcomePrefix[..8]) == "WELCOME "
  {
    assert WelcomePrefix[..8] == "Welcome ";
  }

  /** A Promotional code starts from the first eight characters of a
      digit-free name prefix. */
  lemma LeadingCode(p: string, rest: string)
    requires |p| >= 8 && forall i :: 0 <= i < |p| ==> !IsDigit(p[i])
    ensures PromotionalCode(p + rest) == ToUpper(p[..8])
  {
    NonDigitsKeepsPrefix(p, rest);
    var nd := NonDigits(p + rest);
    assert Take(nd, 8) == nd[..|p|][..8];
  }

  /** With a hash-drawn code, two referees' welcome coupons drawn from
      different lower-case hexadecimal hashes get different codes. */
  lemma RefereeCodeCorrected(r: ReferralCode, referee1: string, referee2: string, blank: Coupon, today: int,
                             stamp1: string, stamp2: string, hash1: string, hash2: string)
    requires |hash1| >= 10 && |hash2| >= 10 && hash1[..10] != hash2[..10]
    requires forall i :: 0 <= i < 10 ==> LowerHex(hash1[i]) && LowerHex(hash2[i])
    ensures var a := GenerateRefereeCoupon(r, referee1, blank, today, stamp1, hash1);
      var b := GenerateRefereeCoupon(r, referee2, blank, today, stamp2, hash2);
      a.Ok? && b.Ok? ==> a.value.couponCode != b.value.couponCode
  {
    var k :| 0 <= k < 10 && hash1[k] != hash2[k];
    UpperHexDistinct(hash1[k], hash2[k]);
    var u1, u2 := ToUpper(Take(hash1, 10)), ToUpper(Take(hash2, 10));
    assert u1[k] == UpperChar(hash1[k]) && u2[k] == UpperChar(hash2[k]);
    assert u1 != u2;
  }

  /** Upper-casing keeps distinct lower-case hexadecimal digits apart. */
  lemma UpperHexDistinct(c1: char, c2: char)
    requires LowerHex(c1) && LowerHex(c2) && c1 != c2
    ensures UpperChar(c1) != UpperChar(c2)
  {
  }

  predicate LowerHex(c: char)
  {
    ('0' <= c <= '9') || ('a' <= c <= 'f')
  }

  // ----- apply_referral_code -----

  /** The outcome of a referral: the updated Referral Code and POS Coupon
      tables, and the coupons issued. */
  datatype Applied = Applied(referrals: map<string, ReferralCode>, coupons: seq<Coupon>,
                             referrerCoupon: Option<Coupon>, refereeCoupon: Coupon)

  /** The inputs `apply_referral_code` draws from its surroundings. */
  datatype Surroundings = Surroundings(
    blank: Coupon, today: int, stamp: string, referrerHash: string, refereeHash: string)

  /** A Promotional coupon of referral `name` held by `customer`. */
  predicate Issued(coupons: seq<Coupon>, name: string, customer: string)
  {
    exists i :: 0 <= i < |coupons| && coupons[i].referralCode == name && coupons[i].customer == customer &&
      coupons[i].couponType == Promotional
  }

  /** `apply_referral_code(code, referee)`: `referrals` holds the Referral
      Code table by code and `coupons` the POS Coupon table. */
  function ApplyReferralCode(referrals: map<string, ReferralCode>, coupons: seq<Coupon>, code: string,
                             referee: string, env: Surroundings): Result<Applied>
  {
    var key := ToUpper(code);
    if key !in referrals then Err("Invalid referral code")
    else
      var r := referrals[key];
      if r.disabled then Err("This referral code has been disabled")
      else if Issued(coupons, r.name, referee) then Err("You have already used this referral code")
      else
        Reward(referrals, coupons, key,
               GenerateReferrerCoupon(r, env.blank, env.today, env.stamp, env.referrerHash),
               GenerateRefereeCouponAsWritten(r, referee, env.blank, env.today, env.stamp, env.refereeHash))
  }

  /** The end of `apply_referral_code` once both coupons were attempted:
      a failed welcome coupon aborts, a failed referrer coupon is only
      logged, and the referral is saved with its count one higher. */
  function Reward(referrals: map<string, ReferralCode>, coupons: seq<Coupon>, key: string,
                  referrer: Result<Coupon>, welcome: Result<Coupon>): (res: Result<Applied>)
    requires key in referrals
    ensures welcome.Err? ==> res == Err("Failed to generate your welcome coupon")
    ensures res.Ok? ==>
      welcome.Ok? && res.value.refereeCoupon == welcome.value &&
      (res.value.referrerCoupon.Some? <==> referrer.Ok?) &&
      (referrer.Ok? ==> res.value.referrerCoupon == Some(referrer.value)) &&
      res.value.referrals == referrals[key := referrals[key].(referralsCount := referrals[key].referralsCount + 1)] &&
      res.value.coupons == coupons + (if referrer.Ok? then [referrer.value] else []) + [welcome.value]
  {
    var r := referrals[key];
    if welcome.Err? then Err("Failed to generate your welcome coupon")
    else
      var counted := r.(referralsCount := r.referralsCount + 1);
      var invalid := Validate(counted);
      if invalid.Some? then Err(invalid.value)
      else
        var issued := if referrer.Ok? then [referrer.value] else [];
        Ok(Applied(referrals[key := counted], coupons + issued + [welcome.value],
                   if referrer.Ok? then Some(referrer.value) else None, welcome.value))
  }

  /** A successful referral: its count is one higher and nothing else in
      the table changes; the coupons are single-use, for the referee
      (Promotional) and the referrer (Gift Card), valid for their days,
      tied to the referral and appended to the coupon table. */
  predicate Rewarded(referrals: map<string, ReferralCode>, coupons: seq<Coupon>, key: string, referee: string,
                     today: int, a: Applied)
    requires key in referrals
  {
    var r := referrals[key];
    a.referrals == referrals[key := r.(referralsCount := r.referralsCount + 1)] &&
    a.coupons == coupons + (if a.referrerCoupon.Some? then [a.referrerCoupon.value] else []) + [a.refereeCoupon] &&
    a.refereeCoupon.customer == referee && a.refereeCoupon.couponType == Promotional &&
    a.refereeCoupon.referralCode == r.name && a.refereeCoupon.maximumUse == 1 && a.refereeCoupon.oneUse &&
    a.refereeCoupon.validUpto == Some(Expiry(today, r.refereeValidDays)) &&
    (a.referrerCoupon.Some? ==>
      a.referrerCoupon.value.customer == r.customer && a.referrerCoupon.value.couponType == GiftCard &&
      a.referrerCoupon.value.referralCode == r.name &&
      a.referrerCoupon.value.maximumUse == 1 && a.referrerCoupon.value.oneUse &&
      a.referrerCoupon.value.validUpto == Some(Expiry(today, r.referrerValidDays)))
  }

  /** Applying succeeds only for a known, enabled code the referee has not
      used, and then rewards as `Rewarded` says. */
  lemma ApplyReferralCodeFacts(referrals: map<string, ReferralCode>, coupons: seq<Coupon>, code: string,
                               referee: string, env: Surroundings)
    ensures var res := ApplyReferralCode(referrals, coupons, code, referee, env);
      res.Ok? ==>
        var key := ToUpper(code);
        key in referrals && !referrals[key].disabled && !Issued(coupons, referrals[key].name, referee) &&
        Rewarded(referrals, coupons, key, referee, env.today, res.value)
  {
    var key := ToUpper(code);
    if key in referrals && !referrals[key].disabled && !Issued(coupons, referrals[key].name, referee) {
      var r := referrals[key];
      var referrer := GenerateReferrerCoupon(r, env.blank, env.today, env.stamp, env.referrerHash);
      var welcome := GenerateRefereeCouponAsWritten(r, referee, env.blank, env.today, env.stamp, env.refereeHash);
      assert ApplyReferralCode(referrals, coupons, code, referee, env) == Reward(referrals, coupons, key, referrer, welcome);
      RewardFacts(referrals, coupons, key, r, referee, env.today, referrer, welcome);
    } else {
      assert ApplyReferralCode(referrals, coupons, code, referee, env).Err?;
    }
  }

  lemma RewardFacts(referrals: map<string, ReferralCode>, coupons: seq<Coupon>, key: string, r: ReferralCode,
                    referee: string, today: int, referrer: Result<Coupon>, welcome: Result<Coupon>)
    requires key in referrals && referrals[key] == r
    requires referrer.Ok? ==>
      referrer.value.couponType == GiftCard && referrer.value.customer == r.customer &&
      referrer.value.referralCode == r.name && referrer.value.maximumUse == 1 && referrer.value.oneUse &&
      referrer.value.validUpto == Some(Expiry(today, r.referrerValidDays))
    requires welcome.Ok? ==>
      welcome.value.couponType == Promotional && welcome.value.customer == referee &&
      welcome.value.referralCode == r.name && welcome.value.maximumUse == 1 && welcome.value.oneUse &&
      welcome.value.validUpto == Some(Expiry(today, r.refereeValidDays))
    ensures var res := Reward(referrals, coupons, key, referrer, welcome);
      res.Ok? ==> Rewarded(referrals, coupons, key, referee, today, res.value)
  {
  }

  /** The refusals of `apply_referral_code`, in its order. */
  lemma ApplyReferralCodeRefusals(referrals: map<string, ReferralCode>, coupons: seq<Coupon>, code: string,
                                  referee: string, env: Surroundings)
    ensures ToUpper(code) !in referrals ==>
      ApplyReferralCode(referrals, coupons, code, referee, env) == Err("Invalid referral code")
    ensures var key := ToUpper(code);
      key in referrals && referrals[key].disabled ==>
      ApplyReferralCode(referrals, coupons, code, referee, env) == Err("This referral code has been disabled")
    ensures var key := ToUpper(code);
      key in referrals && !referrals[key].disabled && Issued(coupons, referrals[key].name, referee) ==>
      ApplyReferralCode(referrals, coupons, code, referee, env) == Err("You have already used this referral code")
    ensures var key := ToUpper(code);
      key in referrals && !referrals[key].disabled && !Issued(coupons, referrals[key].name, referee) &&
      GenerateRefereeCouponAsWritten(referrals[key], referee, env.blank, env.today, env.stamp, env.refereeHash).Err? ==>
      ApplyReferralCode(referrals, coupons, code, referee, env) == Err("Failed to generate your welcome coupon")
  {
  }

  /** A referee can use a referral code once: applying it again to the
      tables it produced is refused, whatever the surroundings. */
  lemma {:induction false} ApplyOnce(referrals: map<string, ReferralCode>, coupons: seq<Coupon>, code: string,
                                     referee: string, env: Surroundings, later: Surroundings)
    ensures var res := ApplyReferralCode(referrals, coupons, code, referee, env);
      res.Ok? ==>
      ApplyReferralCode(res.value.referrals, res.value.coupons, code, referee, later) ==
        Err("You have already used this referral code")
  {
    var res := ApplyReferralCode(referrals, coupons, code, referee, env);
    if res.Ok? {
      ApplyReferralCodeFacts(referrals, coupons, code, referee, env);
      var key := ToUpper(code);
      var a := res.value;
      assert a.referrals[key].name == referrals[key].name && !a.referrals[key].disabled;
      assert a.coupons[|a.coupons| - 1] == a.refereeCoupon;
      assert Issued(a.coupons, a.referrals[key].name, referee);
    }
  }

  /** As written every referee's welcome coupon carries the code "WELCOME ":
      two referees rewarded from the same blank document hold the same code. */
  lemma ApplyReferralCodeWelcome(referrals: map<string, ReferralCode>, coupons: seq<Coupon>, code: string,
                                 referee: string, env: Surroundings)
    requires env.blank.couponCode == "" && |env.stamp| == 14 && AllDigits(env.stamp)
    ensures var res := ApplyReferralCode(referrals, coupons, code, referee, env);
      res.Ok? ==> res.value.refereeCoupon.couponCode == "WELCOME "
  {
    var key := ToUpper(code);
    if key in referrals && !referrals[key].disabled && !Issued(coupons, referrals[key].name, referee) {
      var r := referrals[key];
      RefereeCodeAsWritten(r, referee, env.blank, env.today, env.stamp, env.refereeHash);
    }
  }

  /** A referral code's count never changes its validity, so a referral
      that validated once can always be saved with a new count. */
  lemma CountKeepsValidity(r: ReferralCode, n: int)
    ensures Validate(r.(referralsCount := n)) == Validate(r)
  {
  }

  const ApiFailure := "Failed to apply referral code: "

  /** `apply_referral_code` of the POS API: a failure is reported with
      its reason. */
  function ApplyReferralCodeApi(referrals: map<string, ReferralCode>, coupons: seq<Coupon>, code: string,
                                referee: string, env: Surroundings): (res: Result<Applied>)
    ensures res.Err? <==> ApplyReferralCode(referrals, coupons, code, referee, env).Err?
    ensures res.Ok? ==> res == ApplyReferralCode(referrals, coupons, code, referee, env)
    ensures res.Err? ==>
      res.msg == ApiFailure + ApplyReferralCode(referrals, coupons, code, referee, env).msg
  {
    var inner := ApplyReferralCode(referrals, coupons, code, referee, env);
    if inner.Err? then Err(ApiFailure + inner.msg) else inner
  }
  /** The endpoint's refusals: each reason of `apply_referral_code`
      behind the endpoint's prefix. */
  lemma ApplyReferralCodeApiRefusals(referrals: map<string, ReferralCode>, coupons: seq<Coupon>, code: string,
                                     referee: string, env: Surroundings)
    ensures ToUpper(code) !in referrals ==>
      ApplyReferralCodeApi(referrals, coupons, code, referee, env) ==
        Err(ApiFailure + "Invalid referral code")
    ensures var key := ToUpper(code);
      key in referrals && referrals[key].disabled ==>
      ApplyReferralCodeApi(referrals, coupons, code, referee, env) ==
        Err(ApiFailure + "This referral code has been disabled")
    ensures var key := ToUpper(code);
      key in referrals && !referrals[key].disabled && Issued(coupons, referrals[key].name, referee) ==>
      ApplyReferralCodeApi(referrals, coupons, code, referee, env) ==
        Err(ApiFailure + "You have already used this referral code")
  {
    var inner := ApplyReferralCode(referrals, coupons, code, referee, env);
    var key := ToUpper(code);
    if key !in referrals {
      assert inner == Err("Invalid referral code");
    } else if referrals[key].disabled {
      assert inner == Err("This referral code has been disabled");
    } else if Issued(coupons, referrals[key].name, referee) {
      assert inner == Err("You have already used this referral code");
    }
  }
}

module Referrals {
  import opened Common
  import opened CouponModel
  import opened ReferralModel

  /** A Referral Code document while `autoname` runs. */
  class ReferralDocument {
    var doc: ReferralCode

    constructor(r: ReferralCode)
      ensures doc == r
    {
      doc := r;
    }

    method Autoname(hash1: string, hash2: string)
      modifies this
      ensures doc == ReferralModel.Autoname(old(doc), hash1, hash2)
    {
      if doc.referralName == "" {
        var named := Strip(doc.customer) + "-" + ToUpper(Take(hash1, 5));
        doc := doc.(referralName := named, name := named);
      } else {
        var named := Strip(doc.referralName);
        doc := doc.(referralName := named, name := named);
      }
      if doc.referralCode == "" {
        doc := doc.(referralCode := ToUpper(Take(hash2, 10)));
      }
    }
  }

  /** The Referral Code and POS Coupon tables as referrals are applied. */
  class ReferralTables {
    var referrals: map<string, ReferralCode>
    var coupons: seq<Coupon>

    constructor(initial: map<string, ReferralCode>, issued: seq<Coupon>)
      ensures referrals == initial && coupons == issued
    {
      referrals := initial;
      coupons := issued;
    }

    /** `apply_referral_code`; a failure rolls both tables back. */
    method Apply(code: string, referee: string, env: Surroundings) returns (r: Result<Applied>)
      modifies this
      ensures r == ApplyReferralCode(old(referrals), old(coupons), code, referee, env)
      ensures r.Ok? ==> referrals == r.value.referrals && coupons == r.value.coupons
      ensures r.Err? ==> referrals == old(referrals) && coupons == old(coupons)
    {
      r := ApplyReferralCode(referrals, coupons, code, referee, env);
      if r.Ok? {
        referrals := r.value.referrals;
        coupons := r.value.coupons;
      }
    }
  }
}
