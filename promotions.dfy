// The promotions back office (pos_next/api/promotions.py): promotion and
// coupon status, the item search and its rate limit, and the checks and
// documents behind creating, toggling and deleting promotions and coupons.

module PromotionsModel {
  import opened Common
  import opened CouponModel

  // ----- permissions -----

  /** `check_promotion_permissions(action)`: the message thrown, if any.
      `allowed(right)` is the user's permission on Promotional Scheme. */
  function PermissionError(action: string, allowed: string -> bool): Option<string>
  {
    if action == "read" && !allowed("read") then Some("You don't have permission to view promotions")
    else if action == "write" && !allowed("write") then Some("You don't have permission to create or modify promotions")
    else if action == "delete" && !allowed("delete") then Some("You don't have permission to delete promotions")
    else None
  }

  lemma PermissionFacts(action: string, allowed: string -> bool)
    ensures PermissionError(action, allowed).Some? <==>
      (action == "read" || action == "write" || action == "delete") && !allowed(action)
  {
  }

  // ----- status -----

  /** The status of a promotional scheme or pricing rule on day `today`. */
  function Status(disabled: bool, validFrom: Option<int>, validUpto: Option<int>, today: int): string
  {
    if disabled then "Disabled"
    else if validFrom.Some? && validFrom.value > today then "Not Started"
    else if validUpto.Some? && validUpto.value < today then "Expired"
    else "Active"
  }

  /** Disabled wins over the dates, and not started wins over expired. */
  lemma StatusFacts(disabled: bool, validFrom: Option<int>, validUpto: Option<int>, today: int)
    ensures Status(disabled, validFrom, validUpto, today) == "Disabled" <==> disabled
    ensures Status(disabled, validFrom, validUpto, today) == "Not Started" <==>
      !disabled && validFrom.Some? && validFrom.value > today
    ensures Status(disabled, validFrom, validUpto, today) == "Expired" <==>
      !disabled && (validFrom.None? || validFrom.value <= today) && validUpto.Some? && validUpto.value < today
    ensures Status(disabled, validFrom, validUpto, today) == "Active" <==>
      !disabled && (validFrom.None? || validFrom.value <= today) && (validUpto.None? || today <= validUpto.value)
  {
  }

  /** The status of a coupon: Exhausted comes after Expired. */
  function CouponStatus(c: Coupon, today: int): string
  {
    var s := Status(c.disabled, c.validFrom, c.validUpto, today);
    if s == "Active" && c.maximumUse != 0 && c.used >= c.maximumUse then "Exhausted" else s
  }

  /** `(used / maximum_use) * 100`, or 0 without a limit. */
  function UsagePercent(used: int, maximumUse: int): real
  {
    if maximumUse != 0 then (used as real / maximumUse as real) * 100.0 else 0.0
  }

  lemma CouponStatusFacts(c: Coupon, today: int)
    ensures CouponStatus(c, today) == "Exhausted" <==>
      Status(c.disabled, c.validFrom, c.validUpto, today) == "Active" && c.maximumUse != 0 && c.used >= c.maximumUse
    ensures CouponStatus(c, today) != "Exhausted" ==> CouponStatus(c, today) == Status(c.disabled, c.validFrom, c.validUpto, today)
    ensures CouponStatus(c, today) == "Exhausted" && c.maximumUse > 0 ==> UsagePercent(c.used, c.maximumUse) >= 100.0
    ensures CouponStatus(c, today) == "Active" && c.maximumUse > 0 && c.used >= 0 ==>
      0.0 <= UsagePercent(c.used, c.maximumUse) < 100.0
  {
    if c.maximumUse > 0 {
      var u := c.used as real;
      var m := c.maximumUse as real;
      assert u / m * m == u;
      if c.used >= c.maximumUse {
        assert u / m >= 1.0;
      } else if c.used >= 0 {
        assert 0.0 <= u / m < 1.0;
      }
    }
  }

  /** A row of `get_coupons` with its added fields. */
  datatype CouponRow = CouponRow(coupon: Coupon, status: string, usagePercent: real)

  /** The enrichment of one `get_coupons` row; without a disabled column no
      coupon is disabled. */
  function EnrichedCoupon(c: Coupon, hasDisabledField: bool, today: int): (r: CouponRow)
    ensures !hasDisabledField ==> r.status != "Disabled"
    ensures r.coupon.disabled == (hasDisabledField && c.disabled)
    ensures r.coupon == c.(disabled := r.coupon.disabled)
  {
    var c1 := if hasDisabledField then c else c.(disabled := false);
    CouponRow(c1, CouponStatus(c1, today), UsagePercent(c1.used, c1.maximumUse))
  }

  /** A row of `get_promotions`: a scheme or a standalone pricing rule. */
  datatype PromotionRow = PromotionRow(
    name: string,
    applyOn: string,
    disable: bool,
    validFrom: Option<int>,
    validUpto: Option<int>,
    source: string,
    pricingRulesCount: nat,
    priceSlabs: nat,
    productSlabs: nat,
    itemsCount: nat,
    status: string)

  /** The sizes of a document's child tables. */
  datatype ChildCounts = ChildCounts(priceSlabs: nat, productSlabs: nat, items: nat, itemGroups: nat, brands: nat)

  /** The count of the child table named by `apply_on`. */
  function ItemsCount(applyOn: string, d: ChildCounts): nat
  {
    if applyOn == "Item Code" then d.items
    else if applyOn == "Item Group" then d.itemGroups
    else if applyOn == "Brand" then d.brands
    else 0
  }

  /** The enrichment of a scheme row: `ruleCount` counts its pricing rules
      and `doc` gives its child tables. */
  function EnrichedScheme(r: PromotionRow, ruleCount: nat, doc: ChildCounts, today: int): PromotionRow
  {
    r.(source := "Promotional Scheme", pricingRulesCount := ruleCount, priceSlabs := doc.priceSlabs,
       productSlabs := doc.productSlabs, itemsCount := ItemsCount(r.applyOn, doc),
       status := Status(r.disable, r.validFrom, r.validUpto, today))
  }

  /** The enrichment of a standalone rule row: it counts as one rule with
      one price slab. */
  function EnrichedRule(r: PromotionRow, doc: ChildCounts, today: int): PromotionRow
  {
    r.(source := "Pricing Rule", pricingRulesCount := 1, priceSlabs := 1, productSlabs := 0,
       itemsCount := ItemsCount(r.applyOn, doc), status := Status(r.disable, r.validFrom, r.validUpto, today))
  }

  lemma EnrichedFacts(r: PromotionRow, ruleCount: nat, doc: ChildCounts, today: int)
    ensures var s := EnrichedScheme(r, ruleCount, doc, today);
      s.name == r.name && s.disable == r.disable && s.source == "Promotional Scheme" &&
      s.status == Status(r.disable, r.validFrom, r.validUpto, today) &&
      (r.applyOn != "Item Code" && r.applyOn != "Item Group" && r.applyOn != "Brand" ==> s.itemsCount == 0) &&
      s.itemsCount <= doc.items + doc.itemGroups + doc.brands
    ensures var p := EnrichedRule(r, doc, today);
      p.name == r.name && p.source == "Pricing Rule" && p.pricingRulesCount == 1 &&
      p.priceSlabs == 1 && p.productSlabs == 0 && p.status == Status(r.disable, r.validFrom, r.validUpto, today)
  {
  }

  // ----- get_promotion_details -----

  /** A standalone Pricing Rule document. Missing numbers read as `None`. */
  datatype RuleDoc = RuleDoc(
    children: ChildCounts,
    rateOrDiscount: string,
    minQty: Option<real>,
    maxQty: Option<real>,
    minAmt: Option<real>,
    maxAmt: Option<real>,
    discountPercentage: real,
    discountAmount: real)

  datatype DetailSlab = DetailSlab(
    minQty: real, maxQty: real, minAmount: real, maxAmount: real,
    discountPercentage: real, discountAmount: real, rateOrDiscount: string)

  datatype RuleDetails = RuleDetails(source: string, itemsCount: nat, priceSlabs: seq<DetailSlab>, productSlabs: seq<DetailSlab>)

  /** `x or 0` on a Python number. */
  function OrZero(x: Option<real>): real
  {
    OrNum(x, 0.0)
  }

  /** The Pricing Rule branch of `get_promotion_details`. */
  function RuleDetailsOf(pr: RuleDoc): RuleDetails
  {
    var pct := pr.rateOrDiscount == "Discount Percentage";
    var amt := pr.rateOrDiscount == "Discount Amount";
    var slabs := if pct || amt then
        [DetailSlab(OrZero(pr.minQty), OrZero(pr.maxQty), OrZero(pr.minAmt), OrZero(pr.maxAmt),
                    if pct then pr.discountPercentage else 0.0,
                    if amt then pr.discountAmount else 0.0,
                    pr.rateOrDiscount)]
      else [];
    RuleDetails("Pricing Rule", pr.children.items + pr.children.itemGroups + pr.children.brands, slabs, [])
  }

  datatype Details = SchemeDetails | StandaloneDetails(details: RuleDetails) | NotFound(message: string)

  /** `get_promotion_details(name)`: a scheme of that name wins over a rule. */
  function PromotionDetails(name: string, isScheme: bool, rules: map<string, RuleDoc>): Details
  {
    if isScheme then SchemeDetails
    else if name in rules then StandaloneDetails(RuleDetailsOf(rules[name]))
    else NotFound("Promotion or Pricing Rule " + name + " not found")
  }

  /** A rule's items count covers all three child tables; a synthetic price
      slab exists exactly for a percentage or amount discount, and carries
      only that discount. */
  lemma RuleDetailsFacts(pr: RuleDoc)
    ensures var d := RuleDetailsOf(pr);
      d.itemsCount == pr.children.items + pr.children.itemGroups + pr.children.brands &&
      d.productSlabs == [] &&
      (|d.priceSlabs| == 1 <==> pr.rateOrDiscount == "Discount Percentage" || pr.rateOrDiscount == "Discount Amount") &&
      (d.priceSlabs == [] <==> pr.rateOrDiscount != "Discount Percentage" && pr.rateOrDiscount != "Discount Amount")
    ensures var d := RuleDetailsOf(pr);
      pr.rateOrDiscount == "Discount Percentage" ==>
        d.priceSlabs[0].discountPercentage == pr.discountPercentage && d.priceSlabs[0].discountAmount == 0.0
    ensures var d := RuleDetailsOf(pr);
      pr.rateOrDiscount == "Discount Amount" ==>
        d.priceSlabs[0].discountAmount == pr.discountAmount && d.priceSlabs[0].discountPercentage == 0.0
    ensures var d := RuleDetailsOf(pr);
      d.priceSlabs != [] ==> d.priceSlabs[0].minQty == OrZero(pr.minQty) && d.priceSlabs[0].maxAmount == OrZero(pr.maxAmt)
  {
  }

  // ----- search_items -----

  /** The rate-limit counter in the cache: it is gone at `expiresAt`. */
  datatype CacheEntry = CacheEntry(count: int, expiresAt: int)

  /** `int(raw) if raw else 0` on the cached counter. */
  function CachedCount(e: Option<CacheEntry>, now: int): int
  {
    if e.Some? && now < e.value.expiresAt then e.value.count else 0
  }

  /** One search's pass through the limiter: it is refused once `cap`
      searches are counted; an admitted search stores the count plus one
      for another 60 seconds. */
  function Admit(e: Option<CacheEntry>, now: int, cap: int): (bool, Option<CacheEntry>)
  {
    var count := CachedCount(e, now);
    if count >= cap then (false, e) else (true, Some(CacheEntry(count + 1, now + 60)))
  }

  /** `call_count > 50` refuses from a count of 51. */
  const SearchCapAsWritten := 51
  /** The documented limit of 50 searches. */
  const SearchCap := 50

  /** The admitted count and the cache after searches at `times`. */
  function Run(e: Option<CacheEntry>, times: seq<int>, cap: int): (nat, Option<CacheEntry>)
  {
    if times == [] then (0, e)
    else
      var (n, e1) := Run(e, times[..|times| - 1], cap);
      var (ok, e2) := Admit(e1, times[|times| - 1], cap);
      (if ok then n + 1 else n, e2)
  }

  /** Searches each less than a minute after the previous one. */
  predicate Paced(times: seq<int>)
  {
    forall i :: 0 < i < |times| ==> times[i - 1] <= times[i] < times[i - 1] + 60
  }

  /** Starting with no live counter, a run of paced searches admits the
      first `cap` and refuses the next, however long the run lasts. */
  lemma {:induction false} RunPaced(e: Option<CacheEntry>, times: seq<int>, cap: int)
    requires cap >= 0 && times != [] && Paced(times) && |times| <= cap + 1
    requires CachedCount(e, times[0]) == 0
    ensures Run(e, times, cap).0 == (if |times| <= cap then |times| else cap)
    ensures |times| <= cap ==> Run(e, times, cap).1 == Some(CacheEntry(|times|, times[|times| - 1] + 60))
  {
    var init := times[..|times| - 1];
    if init == [] {
      assert times == [times[0]];
    } else {
      assert Paced(init) by {
        forall i | 0 < i < |init| ensures init[i - 1] <= init[i] < init[i - 1] + 60 {
          assert init[i - 1] == times[i - 1] && init[i] == times[i];
        }
      }
      RunPaced(e, init, cap);
      assert times[|times| - 2] <= times[|times| - 1] < times[|times| - 2] + 60;
    }
  }

  /** As written, a paced user gets 51 searches before the first refusal. */
  lemma SearchLimitAsWritten(e: Option<CacheEntry>, times: seq<int>)
    requires |times| == 52 && Paced(times) && CachedCount(e, times[0]) == 0
    ensures Run(e, times[..51], SearchCapAsWritten).0 == 51
    ensures Run(e, times, SearchCapAsWritten).0 == 51
  {
    var prefix := times[..51];
    assert Paced(prefix) by {
      forall i | 0 < i < |prefix| ensures prefix[i - 1] <= prefix[i] < prefix[i - 1] + 60 {
        assert prefix[i - 1] == times[i - 1] && prefix[i] == times[i];
      }
    }
    RunPaced(e, prefix, SearchCapAsWritten);
    RunPaced(e, times, SearchCapAsWritten);
  }

  /** With the limit of 50, exactly 50 paced searches are admitted and the
      51st is refused. */
  lemma SearchLimitCorrected(e: Option<CacheEntry>, times: seq<int>)
    requires |times| == 51 && Paced(times) && CachedCount(e, times[0]) == 0
    ensures Run(e, times[..50], SearchCap).0 == 50
    ensures Run(e, times, SearchCap).0 == 50
  {
    var prefix := times[..50];
    assert Paced(prefix) by {
      forall i | 0 < i < |prefix| ensures prefix[i - 1] <= prefix[i] < prefix[i - 1] + 60 {
        assert prefix[i - 1] == times[i - 1] && prefix[i] == times[i];
      }
    }
    RunPaced(e, prefix, SearchCap);
    RunPaced(e, times, SearchCap);
  }

  /** The characters `re.sub(r'[^\w\s-]', '', ...)` keeps, ASCII only. */
  predicate Kept(c: char)
  {
    ('a' <= c <= 'z') || ('A' <= c <= 'Z') || ('0' <= c <= '9') || c == '_' || c == '-' || IsSpace(c)
  }

  /** The search term with special characters removed, cut to 100. */
  function SanitizeTerm(s: string): (r: string)
    ensures |r| <= 100
  {
    Take(Filter(s, Kept), 100)
  }

  lemma {:induction false} FilterAllKept(s: string)
    requires forall i :: 0 <= i < |s| ==> Kept(s[i])
    ensures Filter(s, Kept) == s
  {
    if s != [] {
      FilterAllKept(s[..|s| - 1]);
      assert s == s[..|s| - 1] + [s[|s| - 1]];
    }
  }

  /** A sanitised term holds only kept characters, each from the input,
      and sanitising again changes nothing. */
  lemma SanitizeFacts(s: string)
    ensures forall i :: 0 <= i < |SanitizeTerm(s)| ==> Kept(SanitizeTerm(s)[i]) && SanitizeTerm(s)[i] in s
    ensures SanitizeTerm(SanitizeTerm(s)) == SanitizeTerm(s)
    ensures (|s| <= 100 && forall i :: 0 <= i < |s| ==> Kept(s[i])) ==> SanitizeTerm(s) == s
  {
    var f := Filter(s, Kept);
    FilterMembers(s, Kept);
    var r := SanitizeTerm(s);
    assert forall i :: 0 <= i < |r| ==> r[i] == f[i] && f[i] in f;
    FilterAllKept(r);
    if |s| <= 100 && forall i :: 0 <= i < |s| ==> Kept(s[i]) {
      FilterAllKept(s);
    }
  }

  datatype SearchOutcome =
    | Throttled                       // "Too many search requests"
    | NoResults
    | ItemQuery(term: string, limit: int, itemGroups: Option<seq<string>>)

  /** `search_items(term, profile, limit)` at time `now`: the query it runs
      and the new counter. `term` is `None` when missing or not a string,
      `profileGroups` the POS profile's item groups when a profile is given,
      `limit` 0 when missing. */
  function SearchItems(e: Option<CacheEntry>, now: int, term: Option<string>,
                       profileGroups: Option<seq<string>>, limit: int): (SearchOutcome, Option<CacheEntry>)
  {
    var (ok, e1) := Admit(e, now, SearchCapAsWritten);
    if !ok then (Throttled, e1)
    else if term.None? || term.value == "" then (NoResults, e1)
    else
      var t := SanitizeTerm(term.value);
      if |t| < 2 then (NoResults, e1)
      else
        var groups := if profileGroups.Some? && profileGroups.value != [] then profileGroups else None;
        (ItemQuery(t, MinInt(if limit != 0 then limit else 20, 50), groups), e1)
  }

  function MinInt(a: int, b: int): int
  {
    if a <= b then a else b
  }

  /** A search is refused only once more than 50 are already counted, so
      51 searches fit in a minute; every admitted search is counted before
      the term is looked at; a query has a
      sanitised term of 2 to 100 characters and a limit of at most 50 (20
      by default); only a profile with item groups restricts the groups. */
  lemma SearchItemsFacts(e: Option<CacheEntry>, now: int, term: Option<string>,
                         profileGroups: Option<seq<string>>, limit: int)
    ensures var (r, e1) := SearchItems(e, now, term, profileGroups, limit);
      (r.Throttled? <==> CachedCount(e, now) > 50) &&
      (!r.Throttled? ==> e1 == Some(CacheEntry(CachedCount(e, now) + 1, now + 60))) &&
      (r.ItemQuery? ==>
        term.Some? && r.term == SanitizeTerm(term.value) && 2 <= |r.term| <= 100 && r.limit <= 50 &&
        (limit == 0 ==> r.limit == 20) && (0 < limit <= 50 ==> r.limit == limit) &&
        (r.itemGroups.Some? ==> r.itemGroups == profileGroups && profileGroups.value != []))
    ensures !SearchItems(e, now, term, profileGroups, limit).0.Throttled? && term.Some? && |SanitizeTerm(term.value)| >= 2 ==>
      SearchItems(e, now, term, profileGroups, limit).0.ItemQuery?
  {
  }

  // ----- create_coupon -----

  /** The request of `create_coupon`. Missing text is "", missing numbers
      `None`. */
  datatype CouponRequest = CouponRequest(
    couponName: string,
    couponType: string,
    couponCode: string,
    discountType: string,
    discountPercentage: Option<real>,
    discountAmount: Option<real>,
    minAmount: Option<real>,
    maxAmount: Option<real>,
    applyOn: Option<string>,
    company: string,
    customer: string,
    validFrom: Option<int>,
    validUpto: Option<int>,
    maximumUse: int,
    oneUse: int)

  /** `flt(x)`. */
  function Flt(x: Option<real>): real
  {
    if x.Some? then x.value else 0.0
  }

  /** The checks `create_coupon` makes before building the document. */
  function CouponRequestError(d: CouponRequest): Option<string>
  {
    if d.couponName == "" then Some("Coupon name is required")
    else if d.couponType == "" then Some("Coupon type is required")
    else if d.discountType == "" then Some("Discount type is required")
    else if d.company == "" then Some("Company is required")
    else if d.discountType == "Percentage" && OrZero(d.discountPercentage) == 0.0 then
      Some("Discount percentage is required when discount type is Percentage")
    else if d.discountType == "Percentage" && (Flt(d.discountPercentage) <= 0.0 || Flt(d.discountPercentage) > 100.0) then
      Some("Discount percentage must be between 0 and 100")
    else if d.discountType == "Amount" && OrZero(d.discountAmount) == 0.0 then
      Some("Discount amount is required when discount type is Amount")
    else if d.discountType == "Amount" && Flt(d.discountAmount) <= 0.0 then
      Some("Discount amount must be greater than 0")
    else if d.couponType == GiftCard && d.customer == "" then Some("Customer is required for Gift Card coupons")
    else None
  }

  /** The new document `create_coupon` fills from the request. */
  function CouponFromRequest(d: CouponRequest, blank: Coupon): (c: Coupon)
    ensures c.couponName == d.couponName && c.couponType == d.couponType && c.couponCode == d.couponCode
    ensures c.discountType == d.discountType && c.company == d.company && c.customer == d.customer
    ensures c.discountPercentage == (if d.discountType == "Percentage" then Flt(d.discountPercentage) else 0.0)
    ensures c.discountAmount == (if d.discountType == "Amount" then Flt(d.discountAmount) else 0.0)
    ensures c.applyOn == Coalesce(d.applyOn, "Grand Total") && c.maximumUse == d.maximumUse && c.oneUse == (d.oneUse != 0)
  {
    blank.(couponName := d.couponName, couponType := d.couponType, couponCode := d.couponCode,
           discountType := d.discountType,
           discountPercentage := if d.discountType == "Percentage" then Flt(d.discountPercentage) else 0.0,
           discountAmount := if d.discountType == "Amount" then Flt(d.discountAmount) else 0.0,
           minAmount := OrZero(d.minAmount), maxAmount := OrZero(d.maxAmount),
           applyOn := Coalesce(d.applyOn, "Grand Total"), company := d.company, customer := d.customer,
           validFrom := d.validFrom, validUpto := d.validUpto, maximumUse := d.maximumUse, oneUse := d.oneUse != 0)
  }

  /** `create_coupon(data)`: failures of `insert` are re-thrown with a
      prefix. */
  function CreateCoupon(d: CouponRequest, allowed: string -> bool, blank: Coupon, hash: string): Result<Coupon>
  {
    var denied := PermissionError("write", allowed);
    if denied.Some? then Err(denied.value)
    else
      var invalid := CouponRequestError(d);
      if invalid.Some? then Err(invalid.value)
      else match Insert(CouponFromRequest(d, blank), hash)
        case Err(m) => Err("Failed to create coupon: " + m)
        case Ok(c) => Ok(c)
  }

  /** The request checks accept exactly a named, typed request for a
      company with a percentage in (0, 100] or a positive amount, and a
      customer for a Gift Card. */
  lemma CouponRequestFacts(d: CouponRequest)
    ensures CouponRequestError(d).None? <==>
      d.couponName != "" && d.couponType != "" && d.discountType != "" && d.company != "" &&
      (d.discountType == "Percentage" ==> 0.0 < Flt(d.discountPercentage) <= 100.0) &&
      (d.discountType == "Amount" ==> Flt(d.discountAmount) > 0.0) &&
      (d.couponType == GiftCard ==> d.customer != "")
  {
  }

  /** A created coupon has the requested name, type and discount and is
      well formed; a Gift Card is for one use. */
  lemma CreateCouponFacts(d: CouponRequest, allowed: string -> bool, blank: Coupon, hash: string)
    ensures var r := CreateCoupon(d, allowed, blank, hash);
      r.Ok? ==>
        allowed("write") && CouponRequestError(d).None? && WellFormed(r.value) &&
        r.value.couponName == Strip(d.couponName) && r.value.couponType == d.couponType &&
        r.value.discountType == d.discountType && r.value.company == d.company &&
        (d.couponCode != "" ==> r.value.couponCode == d.couponCode) &&
        (d.couponType == GiftCard ==> r.value.maximumUse == 1)
  {
    if !allowed("write") {
      assert PermissionError("write", allowed).Some?;
    } else if CouponRequestError(d).None? {
      var c := CouponFromRequest(d, blank);
      AutonameFacts(c, hash);
      InsertFacts(c, hash);
    }
  }

  // ----- create_promotion -----

  /** An entry of the request's `items`. */
  datatype ItemRef = ItemRef(itemCode: string, itemGroup: string, brand: string, uom: string)

  /** The request of `create_promotion`. Missing text is "", missing
      numbers 0; `discountType` and `freeQty` are `None` when absent, and
      `applicableValues` is the value under the scrubbed applicable-for key
      as a list. */
  datatype PromotionRequest = PromotionRequest(
    name: string,
    company: string,
    applyOn: string,
    items: seq<ItemRef>,
    discountType: Option<string>,
    discountValue: real,
    ruleDescription: string,
    minQty: real,
    maxQty: real,
    minAmt: real,
    maxAmt: real,
    freeItem: string,
    freeQty: Option<real>,
    freeItemUom: string,
    sameItem: int,
    priority: string,
    validFrom: Option<int>,
    validUpto: Option<int>,
    mixedConditions: int,
    isCumulative: int,
    applicableFor: string,
    applicableValues: seq<string>)

  datatype PriceSlabDoc = PriceSlabDoc(
    ruleDescription: string, minQty: real, maxQty: real, minAmount: real, maxAmount: real,
    rateOrDiscount: string, discountPercentage: real, discountAmount: real, priority: string)

  datatype ProductSlabDoc = ProductSlabDoc(
    ruleDescription: string, minQty: real, maxQty: real, minAmount: real, maxAmount: real,
    freeItem: string, freeQty: real, freeItemUom: string, sameItem: int, priority: string)

  /** A child row of the scheme's items, item groups or brands. */
  datatype ItemRow = ItemRow(value: string, uom: string)

  datatype SchemeDoc = SchemeDoc(
    name: string,
    company: string,
    applyOn: string,
    selling: bool,
    buying: bool,
    validFrom: int,
    validUpto: Option<int>,
    mixedConditions: int,
    isCumulative: int,
    applicableFor: string,
    applicableRows: seq<string>,
    items: seq<ItemRow>,
    itemGroups: seq<ItemRow>,
    brands: seq<ItemRow>,
    priceSlabs: seq<PriceSlabDoc>,
    productSlabs: seq<ProductSlabDoc>)

  function ItemRows(items: seq<ItemRef>, kind: string): (rows: seq<ItemRow>)
    ensures |rows| == |items|
  {
    if items == [] then []
    else
      var it := items[|items| - 1];
      ItemRows(items[..|items| - 1], kind) +
        [ItemRow(if kind == "Item Code" then it.itemCode else if kind == "Item Group" then it.itemGroup else it.brand, it.uom)]
  }

  /** The discount slab the request asks for. */
  function Slabs(d: PromotionRequest): (seq<PriceSlabDoc>, seq<ProductSlabDoc>)
  {
    var kind := Coalesce(d.discountType, "percentage");
    if kind == "percentage" || kind == "amount" then
      var pct := kind == "percentage";
      ([PriceSlabDoc(OrText(d.ruleDescription, "Discount Rule"), d.minQty, d.maxQty, d.minAmt, d.maxAmt,
                     if pct then "Discount Percentage" else "Discount Amount",
                     if pct then d.discountValue else 0.0,
                     if pct then 0.0 else d.discountValue,
                     d.priority)], [])
    else if kind == "free_item" then
      ([], [ProductSlabDoc(OrText(d.ruleDescription, "Free Item Rule"), d.minQty, d.maxQty, d.minAmt, d.maxAmt,
                           d.freeItem, Coalesce(d.freeQty, 1.0), d.freeItemUom, d.sameItem, d.priority)])
    else ([], [])
  }

  function OrText(a: string, b: string): string
  {
    if a != "" then a else b
  }

  /** The scheme `create_promotion` builds, on day `today`. */
  function SchemeFromRequest(d: PromotionRequest, today: int): SchemeDoc
  {
    var (price, product) := Slabs(d);
    SchemeDoc(
      d.name, d.company, d.applyOn, true, false,
      Coalesce(d.validFrom, today), d.validUpto, d.mixedConditions, d.isCumulative,
      d.applicableFor, if d.applicableFor != "" then d.applicableValues else [],
      if d.applyOn == "Item Code" then ItemRows(d.items, "Item Code") else [],
      if d.applyOn == "Item Group" then ItemRows(d.items, "Item Group") else [],
      if d.applyOn == "Brand" then ItemRows(d.items, "Brand") else [],
      price, product)
  }

  /** `create_promotion(data)`: `insertError` is the error ERPNext's
      `insert` raises, if any; it is re-thrown with a prefix. */
  function CreatePromotion(d: PromotionRequest, allowed: string -> bool, today: int, insertError: Option<string>): Result<SchemeDoc>
  {
    var denied := PermissionError("write", allowed);
    if denied.Some? then Err(denied.value)
    else if d.name == "" then Err("Promotion name is required")
    else if d.company == "" then Err("Company is required")
    else if d.applyOn == "" then Err("Apply On is required")
    else if insertError.Some? then Err("Failed to create promotion: " + insertError.value)
    else Ok(SchemeFromRequest(d, today))
  }

  /** A promotion is created only with a name, a company and an apply-on;
      it is for selling only, starts today unless given a date, has one
      price slab for a percentage or amount discount and one product slab
      for a free item, and only the child table named by apply-on is
      filled. */
  lemma CreatePromotionFacts(d: PromotionRequest, allowed: string -> bool, today: int, insertError: Option<string>)
    ensures var r := CreatePromotion(d, allowed, today, insertError);
      r.Ok? ==>
        allowed("write") && d.name != "" && d.company != "" && d.applyOn != "" && insertError.None? &&
        r.value.selling && !r.value.buying &&
        r.value.validFrom == (if d.validFrom.Some? then d.validFrom.value else today)
    ensures var s := SchemeFromRequest(d, today);
      var kind := Coalesce(d.discountType, "percentage");
      ((kind == "percentage" || kind == "amount") <==> |s.priceSlabs| == 1) &&
      (kind == "free_item" <==> |s.productSlabs| == 1) &&
      |s.priceSlabs| + |s.productSlabs| <= 1 &&
      (kind == "percentage" ==>
        s.priceSlabs[0].rateOrDiscount == "Discount Percentage" && s.priceSlabs[0].discountPercentage == d.discountValue) &&
      (kind == "amount" ==>
        s.priceSlabs[0].rateOrDiscount == "Discount Amount" && s.priceSlabs[0].discountAmount == d.discountValue)
    ensures var s := SchemeFromRequest(d, today);
      (d.applyOn != "Item Code" ==> s.items == []) &&
      (d.applyOn != "Item Group" ==> s.itemGroups == []) &&
      (d.applyOn != "Brand" ==> s.brands == []) &&
      (d.applyOn == "Item Code" ==> |s.items| == |d.items|) &&
      (d.applyOn == "Item Group" ==> |s.itemGroups| == |d.items|) &&
      (d.applyOn == "Brand" ==> |s.brands| == |d.items|)
  {
    if !allowed("write") {
      assert PermissionError("write", allowed).Some?;
    }
  }

  // ----- toggles and deletion -----

  /** The new flag of `toggle_promotion` and `toggle_coupon`: a given value
      is stored as `cint(value)`, none flips the current flag. */
  function Toggled(current: int, value: Option<int>): int
  {
    if value.Some? then value.value else if current != 0 then 0 else 1
  }

  lemma ToggledFacts(current: int, value: Option<int>)
    ensures value.Some? ==> Toggled(current, value) == value.value
    ensures value.None? ==> (Toggled(current, value) != 0 <==> current == 0)
    ensures Toggled(Toggled(current, None), None) != 0 <==> current != 0
    ensures Toggled(Toggled(current, value), value) == Toggled(current, value) || value.None?
  {
  }

  /** `delete_coupon(name)`: the coupon table afterwards, or the message
      thrown. The refusal is raised inside the `try` and comes back
      prefixed. */
  function DeleteCoupon(coupons: map<string, Coupon>, name: string, allowed: string -> bool): Result<map<string, Coupon>>
  {
    var denied := PermissionError("delete", allowed);
    if denied.Some? then Err(denied.value)
    else if name !in coupons then Err("Coupon " + name + " not found")
    else if coupons[name].used > 0 then
      Err("Failed to delete coupon: Cannot delete coupon " + coupons[name].couponCode +
          " as it has been used " + NatToString(coupons[name].used) + " times")
    else Ok(coupons - {name})
  }

  /** Only an existing coupon that was never used is deleted, and nothing
      else goes. */
  lemma DeleteCouponFacts(coupons: map<string, Coupon>, name: string, allowed: string -> bool)
    ensures var r := DeleteCoupon(coupons, name, allowed);
      r.Ok? <==> allowed("delete") && name in coupons && coupons[name].used <= 0
    ensures var r := DeleteCoupon(coupons, name, allowed);
      r.Ok? ==> r.value.Keys == coupons.Keys - {name} && forall k :: k in r.value ==> r.value[k] == coupons[k]
  {
    if !allowed("delete") {
      assert PermissionError("delete", allowed).Some?;
    }
  }
}

module Promotions {
  import opened Common
  import opened CouponModel
  import opened PromotionsModel

  /** The enrichment loop of `get_coupons`, on the rows in place. */
  method EnrichCoupons(rows: array<CouponRow>, hasDisabledField: bool, today: int)
    modifies rows
    ensures forall i :: 0 <= i < rows.Length ==> rows[i] == EnrichedCoupon(old(rows[i]).coupon, hasDisabledField, today)
  {
    var i := 0;
    while i < rows.Length
      invariant 0 <= i <= rows.Length
      invariant forall j :: 0 <= j < i ==> rows[j] == EnrichedCoupon(old(rows[j]).coupon, hasDisabledField, today)
      invariant forall j :: i <= j < rows.Length ==> rows[j] == old(rows[j])
    {
      rows[i] := EnrichedCoupon(rows[i].coupon, hasDisabledField, today);
      i := i + 1;
    }
  }

  /** The two enrichment loops of `get_promotions`; the result is the
      schemes followed by the standalone rules. */
  method GetPromotions(schemes: array<PromotionRow>, rules: array<PromotionRow>, today: int,
                       ruleCount: string -> nat, schemeDoc: string -> ChildCounts, ruleDoc: string -> ChildCounts)
    returns (all: seq<PromotionRow>)
    requires schemes != rules
    modifies schemes, rules
    ensures forall i :: 0 <= i < schemes.Length ==>
      schemes[i] == EnrichedScheme(old(schemes[i]), ruleCount(old(schemes[i]).name), schemeDoc(old(schemes[i]).name), today)
    ensures forall i :: 0 <= i < rules.Length ==>
      rules[i] == EnrichedRule(old(rules[i]), ruleDoc(old(rules[i]).name), today)
    ensures all == schemes[..] + rules[..]
  {
    var i := 0;
    while i < schemes.Length
      invariant 0 <= i <= schemes.Length
      invariant forall j :: 0 <= j < i ==>
        schemes[j] == EnrichedScheme(old(schemes[j]), ruleCount(old(schemes[j]).name), schemeDoc(old(schemes[j]).name), today)
      invariant forall j :: i <= j < schemes.Length ==> schemes[j] == old(schemes[j])
      invariant rules[..] == old(rules[..])
    {
      var s := schemes[i];
      schemes[i] := EnrichedScheme(s, ruleCount(s.name), schemeDoc(s.name), today);
      i := i + 1;
    }
    i := 0;
    while i < rules.Length
      invariant 0 <= i <= rules.Length
      invariant forall j :: 0 <= j < i ==> rules[j] == EnrichedRule(old(rules[j]), ruleDoc(old(rules[j]).name), today)
      invariant forall j :: i <= j < rules.Length ==> rules[j] == old(rules[j])
      invariant forall j :: 0 <= j < schemes.Length ==>
        schemes[j] == EnrichedScheme(old(schemes[j]), ruleCount(old(schemes[j]).name), schemeDoc(old(schemes[j]).name), today)
    {
      var r := rules[i];
      rules[i] := EnrichedRule(r, ruleDoc(r.name), today);
      i := i + 1;
    }
    all := schemes[..] + rules[..];
  }

  /** The search rate limiter's cache entry for one user. */
  class SearchLimiter {
    var entry: Option<CacheEntry>

    constructor()
      ensures entry.None?
    {
      entry := None;
    }

    /** `search_items` for this user at time `now`. */
    method Search(now: int, term: Option<string>, profileGroups: Option<seq<string>>, limit: int)
      returns (r: SearchOutcome)
      modifies this
      ensures (r, entry) == SearchItems(old(entry), now, term, profileGroups, limit)
    {
      var out := SearchItems(entry, now, term, profileGroups, limit);
      r := out.0;
      entry := out.1;
    }
  }
}
