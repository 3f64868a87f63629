// The POS Coupon document (pos_next/pos_next/doctype/pos_coupon/pos_coupon.py):
// naming, validation, the code check at checkout, the discount a coupon
// gives, and the usage counter.

module CouponModel {
  import opened Common

  /** A POS Coupon document. Empty strings and zeros are the unset values;
      dates are day numbers. */
  datatype Coupon = Coupon(
    couponName: string,
    couponCode: string,
    couponType: string,
    maximumUse: int,
    customer: string,
    discountType: string,
    discountPercentage: real,
    discountAmount: real,
    minAmount: real,
    maxAmount: real,
    validFrom: Option<int>,
    validUpto: Option<int>,
    disabled: bool,
    used: int,
    company: string,
    oneUse: bool,
    applyOn: string,
    posOffer: string,
    campaign: string,
    referralCode: string)

  const GiftCard := "Gift Card"
  const Promotional := "Promotional"

  // ----- autoname -----

  /** The whitespace Python's `str.strip()` removes (ASCII only). */
  predicate IsSpace(c: char)
  {
    c == ' ' || c == '\t' || c == '\n' || c == '\r' || c == '\U{000B}' || c == '\U{000C}'
  }

  predicate IsDigit(c: char)
  {
    '0' <= c <= '9'
  }

  function StripLeft(s: string): (r: string)
    ensures |r| <= |s| && r == s[|s| - |r|..]
    ensures r != [] ==> !IsSpace(r[0])
    ensures forall k :: 0 <= k < |s| - |r| ==> IsSpace(s[k])
  {
    if s != [] && IsSpace(s[0]) then StripLeft(s[1..]) else s
  }

  function StripRight(s: string): (r: string)
    ensures |r| <= |s| && r == s[..|r|]
    ensures r != [] ==> !IsSpace(r[|r| - 1])
    ensures forall k :: |r| <= k < |s| ==> IsSpace(s[k])
  {
    if s != [] && IsSpace(s[|s| - 1]) then StripRight(s[..|s| - 1]) else s
  }

  /** `strip(s)`. */
  function Strip(s: string): string
  {
    StripRight(StripLeft(s))
  }

  lemma StripFacts(s: string)
    ensures var r := Strip(s); r != [] ==> !IsSpace(r[0]) && !IsSpace(r[|r| - 1])
    ensures Strip(Strip(s)) == Strip(s)
    ensures (s == [] || (!IsSpace(s[0]) && !IsSpace(s[|s| - 1]))) ==> Strip(s) == s
  {
    var l := StripLeft(s);
    var r := StripRight(l);
    if r != [] {
      assert r[0] == l[0];
    }
    assert StripLeft(r) == r;
  }

  /** The characters of `s` that are not digits, in order. */
  function NonDigits(s: string): (r: string)
    ensures |r| <= |s|
    ensures forall i :: 0 <= i < |r| ==> !IsDigit(r[i])
  {
    if s == [] then [] else NonDigits(s[..|s| - 1]) + (if IsDigit(s[|s| - 1]) then [] else [s[|s| - 1]])
  }

  /** The code `autoname` derives for a Promotional coupon. */
  function PromotionalCode(name: string): (code: string)
    ensures |code| <= 8
    ensures forall i :: 0 <= i < |code| ==> !IsDigit(code[i])
  {
    var code := ToUpper(Take(NonDigits(name), 8));
    assert forall i :: 0 <= i < |code| ==> code[i] == UpperChar(Take(NonDigits(name), 8)[i]);
    code
  }

  /** `autoname`: the name is the stripped coupon name; a missing code is
      derived from the name (Promotional) or from a random hash (Gift
      Card), given here as `hash`. */
  function Autoname(c: Coupon, hash: string): (string, Coupon)
  {
    var stripped := Strip(c.couponName);
    var c1 := c.(couponName := stripped);
    if c.couponCode != "" then (stripped, c1)
    else if c.couponType == Promotional then (stripped, c1.(couponCode := PromotionalCode(stripped)))
    else if c.couponType == GiftCard then (stripped, c1.(couponCode := ToUpper(Take(hash, 10))))
    else (stripped, c1)
  }

  lemma AutonameFacts(c: Coupon, hash: string)
    ensures var (name, d) := Autoname(c, hash);
      name == d.couponName == Strip(c.couponName) &&
      d == c.(couponName := name, couponCode := d.couponCode)
    ensures c.couponCode != "" ==> Autoname(c, hash).1.couponCode == c.couponCode
    ensures c.couponCode == "" && c.couponType == Promotional ==>
      var code := Autoname(c, hash).1.couponCode;
      |code| <= 8 && (forall i :: 0 <= i < |code| ==> !IsDigit(code[i])) &&
      (|NonDigits(Strip(c.couponName))| >= 8 ==> |code| == 8)
    ensures c.couponCode == "" && c.couponType == GiftCard ==>
      var code := Autoname(c, hash).1.couponCode;
      (|hash| >= 10 ==> |code| == 10) && forall i :: 0 <= i < |code| ==> !('a' <= code[i] <= 'z')
    ensures c.couponCode == "" && c.couponType != Promotional && c.couponType != GiftCard ==>
      Autoname(c, hash).1.couponCode == ""
  {
  }

  // ----- validate -----

  const MsgGiftCardCustomer := "Please select the customer for Gift Card."
  const MsgTypeRequired := "Discount Type is required"
  const MsgPercentageRequired := "Discount Percentage is required"
  const MsgPercentageRange := "Discount Percentage must be between 0 and 100"
  const MsgAmountRequired := "Discount Amount is required"
  const MsgAmountPositive := "Discount Amount must be greater than 0"
  const MsgMinNegative := "Minimum Amount cannot be negative"
  const MsgMaxPositive := "Maximum Discount Amount must be greater than 0"
  const MsgDates := "Valid From date cannot be after Valid Until date"

  /** A Gift Card's maximum use is set to 1 before any check runs. */
  function GiftCardForced(c: Coupon): Coupon
  {
    if c.couponType == GiftCard then c.(maximumUse := 1) else c
  }

  /** `validate`: the first check that fails throws its message; a Gift
      Card has its maximum use forced to 1. */
  function Validate(c: Coupon): Result<Coupon>
  {
    var c1 := GiftCardForced(c);
    if c.couponType == GiftCard && c.customer == "" then Err(MsgGiftCardCustomer)
    else if c.discountType == "" then Err(MsgTypeRequired)
    else if c.discountType == "Percentage" && c.discountPercentage == 0.0 then Err(MsgPercentageRequired)
    else if c.discountType == "Percentage" && (c.discountPercentage <= 0.0 || c.discountPercentage > 100.0) then Err(MsgPercentageRange)
    else if c.discountType == "Amount" && c.discountAmount == 0.0 then Err(MsgAmountRequired)
    else if c.discountType == "Amount" && c.discountAmount <= 0.0 then Err(MsgAmountPositive)
    else if c.minAmount != 0.0 && c.minAmount < 0.0 then Err(MsgMinNegative)
    else if c.maxAmount != 0.0 && c.maxAmount <= 0.0 then Err(MsgMaxPositive)
    else if c.validFrom.Some? && c.validUpto.Some? && c.validFrom.value > c.validUpto.value then Err(MsgDates)
    else Ok(c1)
  }

  /** What a valid coupon satisfies. */
  predicate WellFormed(c: Coupon)
  {
    (c.couponType == GiftCard ==> c.customer != "" && c.maximumUse == 1) &&
    c.discountType != "" &&
    (c.discountType == "Percentage" ==> 0.0 < c.discountPercentage <= 100.0) &&
    (c.discountType == "Amount" ==> c.discountAmount > 0.0) &&
    c.minAmount >= 0.0 && c.maxAmount >= 0.0 &&
    (c.validFrom.Some? && c.validUpto.Some? ==> c.validFrom.value <= c.validUpto.value)
  }

  /** Validation accepts exactly the coupons that are well formed once a
      Gift Card's maximum use is forced to 1, and changes nothing else. */
  lemma ValidateFacts(c: Coupon)
    ensures Validate(c).Ok? ==> WellFormed(Validate(c).value)
    ensures Validate(c).Ok? ==> Validate(c).value == c.(maximumUse := Validate(c).value.maximumUse)
    ensures WellFormed(GiftCardForced(c)) ==> Validate(c) == Ok(GiftCardForced(c))
    ensures WellFormed(c) ==> Validate(c) == Ok(c)
  {
  }

  /** `insert`: the document's naming and validation hooks. Duplicate names
      are not modelled. */
  function Insert(c: Coupon, hash: string): Result<Coupon>
  {
    Validate(Autoname(c, hash).1)
  }

  /** An insert that succeeds keeps the named document, with a Gift
      Card's maximum use forced to 1, and it is then well formed. */
  lemma InsertFacts(c: Coupon, hash: string)
    ensures Insert(c, hash).Ok? ==>
      Insert(c, hash).value == GiftCardForced(Autoname(c, hash).1) && WellFormed(Insert(c, hash).value)
  {
    ValidateFacts(Autoname(c, hash).1);
  }

  // ----- check_coupon_code -----

  const MsgNotExist := "Sorry, this coupon code does not exist"
  const MsgDisabled := "Sorry, this coupon has been disabled"
  const MsgNotStarted := "Sorry, this coupon code's validity has not started"
  const MsgExpired := "Sorry, this coupon code has expired"
  const MsgRedeemed := "Sorry, this coupon code has been fully redeemed"
  const MsgCompany := "Sorry, this coupon is not valid for this company"
  const MsgGiftCardOwner := "Sorry, this gift card is assigned to a specific customer"
  const MsgAlreadyUsed := "Sorry, you have already used this coupon code"

  datatype CouponCheck = CouponCheck(coupon: Option<Coupon>, msg: Option<string>, valid: bool)

  function Rejected(msg: string): CouponCheck
  {
    CouponCheck(None, Some(msg), false)
  }

  /** The coupon has been used up. */
  predicate Exhausted(c: Coupon)
  {
    c.used != 0 && c.maximumUse != 0 && c.used >= c.maximumUse
  }

  /** `check_coupon_code(code, customer, company)`. `coupons` holds the
      coupons by code, `today` is the current day, and `uses(customer,
      code)` counts the customer's submitted POS Invoices with that code. */
  function CheckCouponCode(coupons: map<string, Coupon>, code: string, customer: string, company: string,
                           today: int, uses: (string, string) -> nat): CouponCheck
  {
    var key := ToUpper(code);
    if key !in coupons then Rejected(MsgNotExist)
    else
      var c := coupons[key];
      if c.disabled then Rejected(MsgDisabled)
      else if c.validFrom.Some? && c.validFrom.value > today then Rejected(MsgNotStarted)
      else if c.validUpto.Some? && c.validUpto.value < today then Rejected(MsgExpired)
      else if Exhausted(c) then Rejected(MsgRedeemed)
      else if company != "" && c.company != company then Rejected(MsgCompany)
      else if c.couponType == GiftCard && c.customer != "" && (customer == "" || c.customer != customer) then Rejected(MsgGiftCardOwner)
      else if c.oneUse && customer != "" && uses(customer, c.couponCode) > 0 then Rejected(MsgAlreadyUsed)
      else CouponCheck(Some(c), None, true)
  }

  /** Every condition the check requires of a coupon. */
  predicate Redeemable(c: Coupon, customer: string, company: string, today: int, uses: (string, string) -> nat)
  {
    !c.disabled &&
    (c.validFrom.Some? ==> c.validFrom.value <= today) &&
    (c.validUpto.Some? ==> today <= c.validUpto.value) &&
    !Exhausted(c) &&
    (company != "" ==> c.company == company) &&
    (c.couponType == GiftCard && c.customer != "" ==> customer == c.customer) &&
    (c.oneUse && customer != "" ==> uses(customer, c.couponCode) == 0)
  }

  /** The check succeeds exactly for a stored, redeemable coupon and then
      returns it; otherwise it returns a message and no coupon. */
  lemma CheckCouponCodeFacts(coupons: map<string, Coupon>, code: string, customer: string, company: string,
                             today: int, uses: (string, string) -> nat)
    ensures var r := CheckCouponCode(coupons, code, customer, company, today, uses);
      r.valid <==> ToUpper(code) in coupons && Redeemable(coupons[ToUpper(code)], customer, company, today, uses)
    ensures var r := CheckCouponCode(coupons, code, customer, company, today, uses);
      r.valid ==> r.coupon == Some(coupons[ToUpper(code)]) && r.msg.None?
    ensures var r := CheckCouponCode(coupons, code, customer, company, today, uses);
      !r.valid ==> r.coupon.None? && r.msg.Some?
    ensures ToUpper(code) !in coupons ==> CheckCouponCode(coupons, code, customer, company, today, uses) == Rejected(MsgNotExist)
  {
  }

  // ----- apply_coupon_discount -----

  datatype Discount = Discount(valid: bool, discount: real)

  /** The amount the discount is computed on. */
  function DiscountBase(c: Coupon, cartTotal: real, netTotal: Option<real>): real
  {
    if c.applyOn == "Grand Total" then cartTotal else OrNum(netTotal, cartTotal)
  }

  /** The discount before the caps. */
  function RawDiscount(c: Coupon, base: real): real
  {
    if c.discountType == "Percentage" then base * c.discountPercentage / 100.0
    else if c.discountType == "Amount" then c.discountAmount
    else 0.0
  }

  /** `apply_coupon_discount(coupon, cart_total, net_total)`. */
  function ApplyCouponDiscount(c: Coupon, cartTotal: real, netTotal: Option<real>): Discount
  {
    var base := DiscountBase(c, cartTotal, netTotal);
    if c.minAmount != 0.0 && base < c.minAmount then Discount(false, 0.0)
    else
      var d0 := RawDiscount(c, base);
      var d1 := if c.maxAmount != 0.0 && d0 > c.maxAmount then c.maxAmount else d0;
      var d2 := if d1 > base then base else d1;
      Discount(true, d2)
  }

  /** Below the minimum the coupon gives nothing; otherwise the discount is
      the raw amount capped by the maximum and by the base, so for
      non-negative inputs it lies between 0 and the base. */
  lemma ApplyCouponDiscountFacts(c: Coupon, cartTotal: real, netTotal: Option<real>)
    ensures var base := DiscountBase(c, cartTotal, netTotal);
      var r := ApplyCouponDiscount(c, cartTotal, netTotal);
      (!r.valid <==> c.minAmount != 0.0 && base < c.minAmount) &&
      (!r.valid ==> r.discount == 0.0) &&
      (r.valid ==> r.discount <= base) &&
      (r.valid && c.maxAmount != 0.0 ==> r.discount <= c.maxAmount) &&
      (r.valid ==> r.discount <= RawDiscount(c, base)) &&
      (r.valid && RawDiscount(c, base) <= base && (c.maxAmount == 0.0 || RawDiscount(c, base) <= c.maxAmount) ==>
        r.discount == RawDiscount(c, base))
    ensures var base := DiscountBase(c, cartTotal, netTotal);
      base >= 0.0 && c.discountPercentage >= 0.0 && c.discountAmount >= 0.0 && c.maxAmount >= 0.0 ==>
      0.0 <= ApplyCouponDiscount(c, cartTotal, netTotal).discount <= base
  {
    var base := DiscountBase(c, cartTotal, netTotal);
    if base >= 0.0 && c.discountPercentage >= 0.0 {
      assert base * c.discountPercentage >= 0.0;
    }
  }

  lemma DiscountBaseFacts(c: Coupon, cartTotal: real, netTotal: Option<real>)
    ensures c.applyOn == "Grand Total" ==> DiscountBase(c, cartTotal, netTotal) == cartTotal
    ensures c.applyOn != "Grand Total" && netTotal.Some? && netTotal.value != 0.0 ==>
      DiscountBase(c, cartTotal, netTotal) == netTotal.value
    ensures c.applyOn != "Grand Total" && (netTotal.None? || netTotal.value == 0.0) ==>
      DiscountBase(c, cartTotal, netTotal) == cartTotal
  {
  }

  // ----- increment / decrement usage -----

  /** `increment_coupon_usage`: a missing coupon is only logged. */
  function Incremented(coupons: map<string, Coupon>, code: string): map<string, Coupon>
  {
    var key := ToUpper(code);
    if key in coupons then coupons[key := coupons[key].(used := coupons[key].used + 1)] else coupons
  }

  /** `decrement_coupon_usage`: only a positive counter goes down. */
  function Decremented(coupons: map<string, Coupon>, code: string): map<string, Coupon>
  {
    var key := ToUpper(code);
    if key in coupons && coupons[key].used > 0 then coupons[key := coupons[key].(used := coupons[key].used - 1)] else coupons
  }

  lemma UsageFacts(coupons: map<string, Coupon>, code: string, other: string)
    ensures var key := ToUpper(code);
      key in coupons ==> Incremented(coupons, code)[key].used == coupons[key].used + 1
    ensures var key := ToUpper(code);
      key in coupons && coupons[key].used >= 0 ==> Decremented(coupons, code)[key].used >= 0
    ensures var key := ToUpper(code);
      key in coupons && coupons[key].used > 0 ==> Decremented(coupons, code)[key].used == coupons[key].used - 1
    ensures var key := ToUpper(code);
      key in coupons && coupons[key].used >= 0 ==> Decremented(Incremented(coupons, code), code) == coupons
    ensures other != ToUpper(code) ==>
      (other in Incremented(coupons, code) <==> other in coupons) &&
      (other in coupons ==> Incremented(coupons, code)[other] == coupons[other] && Decremented(coupons, code)[other] == coupons[other])
    ensures Incremented(coupons, code).Keys == coupons.Keys && Decremented(coupons, code).Keys == coupons.Keys
  {
    var key := ToUpper(code);
    if key in coupons && coupons[key].used >= 0 {
      var inc := Incremented(coupons, code);
      assert inc[key].used > 0;
      assert Decremented(inc, code) == inc[key := coupons[key]];
      assert inc[key := coupons[key]] == coupons;
    }
  }
}

module Coupons {
  import opened Common
  import opened CouponModel

  /** A POS Coupon document while its hooks run. */
  class CouponDocument {
    var name: string
    var doc: Coupon

    constructor(c: Coupon)
      ensures doc == c && name == ""
    {
      doc := c;
      name := "";
    }

    method Autoname(hash: string)
      modifies this
      ensures (name, doc) == CouponModel.Autoname(old(doc), hash)
    {
      doc := doc.(couponName := Strip(doc.couponName));
      name := doc.couponName;
      if doc.couponCode == "" {
        if doc.couponType == Promotional {
          doc := doc.(couponCode := PromotionalCode(doc.couponName));
        } else if doc.couponType == GiftCard {
          doc := doc.(couponCode := ToUpper(Take(hash, 10)));
        }
      }
    }

    /** `validate`: `Err` is the message thrown. */
    method Validate() returns (r: Result<Coupon>)
      modifies this
      ensures r == CouponModel.Validate(old(doc))
      ensures doc == GiftCardForced(old(doc))
      ensures r.Ok? ==> doc == r.value && WellFormed(doc)
    {
      var original := doc;
      if doc.couponType == GiftCard {
        doc := doc.(maximumUse := 1);
      }
      r := CouponModel.Validate(original);
      ValidateFacts(original);
    }
  }

  /** The POS Coupon table and its usage counters. */
  class CouponTable {
    var coupons: map<string, Coupon>

    constructor(initial: map<string, Coupon>)
      ensures coupons == initial
    {
      coupons := initial;
    }

    method IncrementUsage(code: string)
      modifies this
      ensures coupons == Incremented(old(coupons), code)
    {
      var key := ToUpper(code);
      if key in coupons {
        var c := coupons[key];
        coupons := coupons[key := c.(used := c.used + 1)];
      }
    }

    method DecrementUsage(code: string)
      modifies this
      ensures coupons == Decremented(old(coupons), code)
    {
      var key := ToUpper(code);
      if key in coupons && coupons[key].used > 0 {
        var c := coupons[key];
        coupons := coupons[key := c.(used := c.used - 1)];
      }
    }
  }
}
