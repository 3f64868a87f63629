// The client-side POS Settings store (POS/src/stores/posSettings.js): the
// settings object with its 35 defaults, the getters that coerce its raw
// values, the discount and negative-stock rules, and the load and reset
// actions.

module PosSettingsModel {
  import opened Common
  import Db = OfflineDbModel

  /** A raw value of the settings object as it comes from the server or the
      defaults: JavaScript numbers, strings, booleans, `null` and an absent
      key (`undefined`). */
  datatype Raw = RUndef | RNull | RBool(b: bool) | RNum(x: real) | RStr(s: string)

  /** The settings object: key to raw value. */
  type Settings = map<string, Raw>

  /** `Boolean(v)`. */
  predicate Boolean(v: Raw)
  {
    match v
    case RUndef => false
    case RNull => false
    case RBool(b) => b
    case RNum(x) => x != 0.0
    case RStr(s) => s != ""
  }

  /** `settings.value[key]`. */
  function Get(s: Settings, key: string): (v: Raw)
    ensures key !in s ==> v == RUndef
  {
    if key in s then s[key] else RUndef
  }

  /** The defaults the store starts from and `resetSettings` restores. */
  const Defaults: Settings := map[
    "pos_profile" := RStr(""),
    "enabled" := RNum(0.0),
    "max_discount_allowed" := RNum(0.0),
    "use_percentage_discount" := RNum(0.0),
    "allow_user_to_edit_additional_discount" := RNum(0.0),
    "allow_credit_sale" := RNum(0.0),
    "allow_return" := RNum(0.0),
    "allow_write_off_change" := RNum(0.0),
    "default_card_view" := RNum(0.0),
    "display_item_code" := RNum(0.0),
    "show_customer_balance" := RNum(0.0),
    "hide_expected_amount" := RNum(0.0),
    "display_discount_percentage" := RNum(0.0),
    "display_discount_amount" := RNum(0.0),
    "allow_sales_order" := RNum(0.0),
    "allow_select_sales_order" := RNum(0.0),
    "create_only_sales_order" := RNum(0.0),
    "allow_return_without_invoice" := RNum(0.0),
    "allow_free_batch_return" := RNum(0.0),
    "allow_print_draft_invoices" := RNum(0.0),
    "decimal_precision" := RStr("2"),
    "allow_customer_purchase_order" := RNum(0.0),
    "allow_duplicate_customer_names" := RNum(0.0),
    "fetch_coupon" := RNum(0.0),
    "allow_print_last_invoice" := RNum(0.0),
    "silent_print" := RNum(0.0),
    "use_delivery_charges" := RNum(0.0),
    "auto_set_delivery_charges" := RNum(0.0),
    "use_limit_search" := RNum(0.0),
    "search_limit" := RNum(1000.0),
    "allow_submissions_in_background_job" := RNum(0.0),
    "allow_delete_offline_invoice" := RNum(0.0),
    "allow_change_posting_date" := RNum(0.0),
    "input_qty" := RNum(0.0),
    "allow_negative_stock" := RNum(0.0)
  ]

  /** The keys behind the store's `Boolean(...)` getters (`isEnabled`,
      `allowCreditSale`, ..., `allowNegativeStock`). */
  const FlagKeys: set<string> := {
    "enabled", "use_percentage_discount", "allow_user_to_edit_additional_discount",
    "allow_credit_sale", "allow_return", "allow_write_off_change", "default_card_view",
    "display_item_code", "show_customer_balance", "hide_expected_amount",
    "display_discount_percentage", "display_discount_amount", "allow_sales_order",
    "allow_select_sales_order", "create_only_sales_order", "allow_return_without_invoice",
    "allow_free_batch_return", "allow_print_draft_invoices", "allow_customer_purchase_order",
    "allow_duplicate_customer_names", "fetch_coupon", "allow_print_last_invoice",
    "silent_print", "use_delivery_charges", "auto_set_delivery_charges", "use_limit_search",
    "allow_submissions_in_background_job", "allow_delete_offline_invoice",
    "allow_change_posting_date", "input_qty", "allow_negative_stock"
  }

  /** A `Boolean(settings.value.key)` getter. */
  predicate Flag(s: Settings, key: string)
  {
    Boolean(Get(s, key))
  }

  predicate IsEnabled(s: Settings)
  {
    Flag(s, "enabled")
  }

  /** Truncation toward zero, which `parseInt` applies to a number. */
  function Trunc(x: real): (n: int)
    ensures 0.0 <= x ==> n as real <= x < n as real + 1.0
    ensures x < 0.0 ==> n as real - 1.0 < x <= n as real
  {
    if x >= 0.0 then x.Floor else -((-x).Floor)
  }

  /** `parseInt(v)`; `None` is NaN. */
  function ParseIntRaw(v: Raw): Option<int>
  {
    match v
    case RNum(x) => Some(Trunc(x))
    case RStr(s) => Db.ParseInt(s)
    case _ => None
  }

  /** `parseFloat` on a string: an optional minus sign, digits, and an
      optional fraction after a '.'; `None` is NaN. */
  function ParseFloatText(s: string): Option<real>
  {
    var neg := |s| > 0 && s[0] == '-';
    var body := if neg then s[1..] else s;
    var k1 := Db.LeadingDigits(body);
    var rest := body[k1..];
    var k2 := if |rest| > 0 && rest[0] == '.' then Db.LeadingDigits(rest[1..]) else 0;
    if k1 == 0 && k2 == 0 then None
    else
      var whole := if k1 == 0 then 0 else Db.DigitsValue(body[..k1]);
      var frac := if k2 == 0 then 0 else Db.DigitsValue(rest[1..][..k2]);
      var m := whole as real + frac as real / Pow10(k2) as real;
      Some(if neg then -m else m)
  }

  /** `parseFloat(v)`; `None` is NaN. */
  function ParseFloatRaw(v: Raw): Option<real>
  {
    match v
    case RNum(x) => Some(x)
    case RStr(s) => ParseFloatText(s)
    case _ => None
  }

  /** `parseInt(v) || d`. */
  function IntOr(p: Option<int>, d: int): int
  {
    if p.Some? && p.value != 0 then p.value else d
  }

  /** `maxDiscountAllowed`: `parseFloat(max_discount_allowed) || 0`. */
  function MaxDiscountAllowed(s: Settings): real
  {
    OrNum(ParseFloatRaw(Get(s, "max_discount_allowed")), 0.0)
  }

  /** `decimalPrecision`: `parseInt(decimal_precision) || 2`. */
  function DecimalPrecision(s: Settings): int
  {
    IntOr(ParseIntRaw(Get(s, "decimal_precision")), 2)
  }

  /** `searchLimit`: `parseInt(search_limit) || 1000`. */
  function SearchLimit(s: Settings): int
  {
    IntOr(ParseIntRaw(Get(s, "search_limit")), 1000)
  }

  /** `validateDiscount(p)`. */
  predicate ValidateDiscount(s: Settings, p: real)
  {
    !IsEnabled(s) || MaxDiscountAllowed(s) == 0.0 || p <= MaxDiscountAllowed(s)
  }

  /** `isNegativeStockAllowed()`. */
  predicate NegativeStockAllowed(s: Settings)
  {
    IsEnabled(s) && Flag(s, "allow_negative_stock")
  }

  /** `shouldEnforceStockValidation()`. */
  predicate EnforceStockValidation(s: Settings)
  {
    IsEnabled(s) && !Flag(s, "allow_negative_stock")
  }

  // ----- Discount and stock rules -----

  lemma ValidateDiscountFacts(s: Settings, p: real, q: real)
    ensures !IsEnabled(s) || MaxDiscountAllowed(s) == 0.0 ==> ValidateDiscount(s, p)
    ensures IsEnabled(s) && MaxDiscountAllowed(s) != 0.0 ==>
      (ValidateDiscount(s, p) <==> p <= MaxDiscountAllowed(s))
    ensures ValidateDiscount(s, p) && q <= p ==> ValidateDiscount(s, q)
    ensures p <= MaxDiscountAllowed(s) ==> ValidateDiscount(s, p)
  {
  }

  lemma StockRulesFacts(s: Settings)
    ensures !(NegativeStockAllowed(s) && EnforceStockValidation(s))
    ensures !IsEnabled(s) ==> !NegativeStockAllowed(s) && !EnforceStockValidation(s)
    ensures IsEnabled(s) ==> (NegativeStockAllowed(s) <==> !EnforceStockValidation(s))
  {
  }

  // ----- Parsed getters -----

  lemma {:induction false} ParseIntOfNat(n: nat)
    ensures Db.ParseInt(NatToString(n)) == Some(n)
  {
    Db.DigitsOfNat(n);
    var s := NatToString(n);
    assert s[..|s|] == s;
  }

  lemma {:induction false} ParseFloatOfNat(n: nat)
    ensures ParseFloatText(NatToString(n)) == Some(n as real)
  {
    Db.DigitsOfNat(n);
    var s := NatToString(n);
    assert s[..|s|] == s;
    assert s[|s|..] == [];
  }

  /** The fallbacks: each parsed getter gives its default for NaN and 0,
      and a positive number written as text or as a number reads back. */
  lemma ParsedGetterFacts(s: Settings, n: nat)
    ensures DecimalPrecision(s) != 0 && SearchLimit(s) != 0
    ensures ParseIntRaw(Get(s, "decimal_precision")) in {None, Some(0)} ==> DecimalPrecision(s) == 2
    ensures ParseIntRaw(Get(s, "search_limit")) in {None, Some(0)} ==> SearchLimit(s) == 1000
    ensures ParseFloatRaw(Get(s, "max_discount_allowed")) in {None, Some(0.0)} ==> MaxDiscountAllowed(s) == 0.0
    ensures n > 0 ==> DecimalPrecision(s["decimal_precision" := RStr(NatToString(n))]) == n
    ensures n > 0 ==> SearchLimit(s["search_limit" := RNum(n as real)]) == n
    ensures MaxDiscountAllowed(s["max_discount_allowed" := RStr(NatToString(n))]) == n as real
  {
    ParseIntOfNat(n);
    ParseFloatOfNat(n);
  }

  lemma DefaultsFacts()
    ensures DecimalPrecision(Defaults) == 2
    ensures SearchLimit(Defaults) == 1000
    ensures MaxDiscountAllowed(Defaults) == 0.0
    ensures !Boolean(Defaults["pos_profile"])
  {
    DefaultEntries();
    ParseIntOfNat(2);
    assert NatToString(2) == "2";
  }

  lemma DefaultEntries()
    ensures Get(Defaults, "decimal_precision") == RStr("2")
    ensures Get(Defaults, "search_limit") == RNum(1000.0)
    ensures Get(Defaults, "max_discount_allowed") == RNum(0.0)
    ensures Defaults["pos_profile"] == RStr("")
  {
  }

  /** Every `Boolean(...)` getter is false on the defaults. */
  lemma DefaultFlagsOff(k: string)
    requires k in FlagKeys
    ensures k in Defaults && !Flag(Defaults, k)
  {
  }

  // ----- Load and reset -----

  datatype SettingsState = SettingsState(settings: Settings, isLoading: bool, isLoaded: bool)

  function InitialState(): SettingsState
  {
    SettingsState(Defaults, false, false)
  }

  /** `resetSettings()`: a fresh defaults object, `isLoaded` cleared. */
  function Reset(st: SettingsState): SettingsState
  {
    st.(settings := Defaults, isLoaded := false)
  }

  /** How the settings request ends. `Succeeded(None)` is a falsy payload.
      Whether `submit` rejects after `onError` is up to frappe-ui, which is
      not part of this model, so both endings are kept. */
  datatype LoadOutcome = Succeeded(data: Option<Settings>) | FailedResolved | FailedRejected

  /** The synchronous part of `loadSettings(profile)`: `None` is the early
      `return false`. */
  function BeginLoad(st: SettingsState, profile: Raw): Option<SettingsState>
  {
    if !Boolean(profile) then None
    else Some(st.(isLoading := true, settings := st.settings["pos_profile" := profile]))
  }

  /** `onSuccess`/`onError` and the value the awaited `submit` gives. */
  function FinishLoad(st: SettingsState, outcome: LoadOutcome): (SettingsState, bool)
  {
    match outcome
    case Succeeded(None) => (st.(isLoading := false), true)
    case Succeeded(Some(d)) => (st.(settings := st.settings + d, isLoaded := true, isLoading := false), true)
    case FailedResolved => (st.(isLoading := false), true)
    case FailedRejected => (st.(isLoading := false), false)
  }

  /** The whole of `loadSettings(profile)`. */
  function Load(st: SettingsState, profile: Raw, outcome: LoadOutcome): (SettingsState, bool)
  {
    var begun := BeginLoad(st, profile);
    if begun.None? then (st, false) else FinishLoad(begun.value, outcome)
  }

  lemma LoadFacts(st: SettingsState, profile: Raw, outcome: LoadOutcome, k: string)
    ensures !Boolean(profile) ==> Load(st, profile, outcome) == (st, false)
    ensures Boolean(profile) ==> !Load(st, profile, outcome).0.isLoading
    ensures Boolean(profile) ==> (Load(st, profile, outcome).1 <==> !outcome.FailedRejected?)
    ensures Boolean(profile) ==>
      (Load(st, profile, outcome).0.isLoaded <==> st.isLoaded || (outcome.Succeeded? && outcome.data.Some?))
    ensures Boolean(profile) && outcome.Succeeded? && outcome.data.Some? && k in outcome.data.value ==>
      Get(Load(st, profile, outcome).0.settings, k) == outcome.data.value[k]
    ensures Boolean(profile) && !(outcome.Succeeded? && outcome.data.Some? && k in outcome.data.value) ==>
      Get(Load(st, profile, outcome).0.settings, k) == if k == "pos_profile" then profile else Get(st.settings, k)
  {
  }

  lemma ResetFacts(st: SettingsState, other: SettingsState, p: real)
    ensures Reset(st).settings == Defaults && !Reset(st).isLoaded
    ensures Reset(st).isLoading == st.isLoading
    ensures Reset(Reset(st)) == Reset(st)
    ensures Reset(st).settings == Reset(other).settings
    ensures forall k :: k in FlagKeys ==> !Flag(Reset(st).settings, k)
    ensures ValidateDiscount(Reset(st).settings, p)
    ensures !NegativeStockAllowed(Reset(st).settings) && !EnforceStockValidation(Reset(st).settings)
    ensures forall k :: k in st.settings && k !in Defaults ==> Get(Reset(st).settings, k) == RUndef
  {
    forall k | k in FlagKeys
      ensures !Flag(Reset(st).settings, k)
    {
      DefaultFlagsOff(k);
    }
    DefaultFlagsOff("enabled");
  }
}

module PosSettings {
  import opened Common
  import opened PosSettingsModel

  /** The store: the `settings` ref, `isLoading` and `isLoaded`. */
  class SettingsStore {
    var settings: Settings
    var isLoading: bool
    var isLoaded: bool

    function State(): SettingsState
      reads this
    {
      SettingsState(settings, isLoading, isLoaded)
    }

    constructor()
      ensures State() == InitialState()
    {
      settings := Defaults;
      isLoading := false;
      isLoaded := false;
    }

    /** `loadSettings(profile)` up to the request: `false` is the early
        return. */
    method LoadSettings(profile: Raw) returns (started: bool)
      modifies this
      ensures started == Boolean(profile)
      ensures started ==> State() == BeginLoad(old(State()), profile).value
      ensures !started ==> State() == old(State())
    {
      if !Boolean(profile) {
        return false;
      }
      isLoading := true;
      settings := settings["pos_profile" := profile];
      return true;
    }

    /** The request's handlers and the value `loadSettings` then returns. */
    method SettingsArrived(outcome: LoadOutcome) returns (ok: bool)
      modifies this
      ensures (State(), ok) == FinishLoad(old(State()), outcome)
    {
      match outcome {
        case Succeeded(data) =>
          if data.Some? {
            settings := settings + data.value;
            isLoaded := true;
          }
          isLoading := false;
          ok := true;
        case FailedResolved =>
          isLoading := false;
          ok := true;
        case FailedRejected =>
          isLoading := false;
          ok := false;
      }
    }

    method ResetSettings()
      modifies this
      ensures State() == Reset(old(State()))
    {
      settings := Defaults;
      isLoaded := false;
    }

  }
}
