// The daily sweep that disables expired promotions
// (pos_next/tasks/cleanup_expired_promotions.py).

module CleanupModel {
  import opened Common

  /** A Pricing Rule or Promotional Scheme row; dates are day numbers and
      `validUpto` is `None` for NULL. */
  datatype Rule = Rule(name: string, disable: int, validUpto: Option<int>)

  /** The two doctypes the sweep handles. */
  datatype Kind = PricingRule | PromotionalScheme

  function Label(k: Kind): string
  {
    match k
    case PricingRule => "pricing rule"
    case PromotionalScheme => "promotional scheme"
  }

  /** The selection of the sweep's query: enabled, with an end date, ended
      before today. */
  predicate Expired(r: Rule, today: int)
  {
    r.disable == 0 && r.validUpto.Some? && r.validUpto.value < today
  }

  /** The rows after a sweep, the number disabled and the collected
      errors. */
  datatype SweepState = SweepState(rows: seq<Rule>, count: nat, errors: seq<string>)

  /** The message recorded when disabling a row fails with `e`. */
  function FailureMessage(k: Kind, name: string, e: string): string
  {
    "Failed to disable " + Label(k) + " " + name + ": " + e
  }

  /** The loop over the expired rows: a row whose update fails (its name is
      in `fails`, with the exception text) is left as it was and its error
      recorded; every other expired row is disabled and counted. */
  function Sweep(rows: seq<Rule>, today: int, fails: map<string, string>, k: Kind): SweepState
  {
    if rows == [] then SweepState([], 0, [])
    else
      var p := Sweep(rows[..|rows| - 1], today, fails, k);
      var r := rows[|rows| - 1];
      if !Expired(r, today) then SweepState(p.rows + [r], p.count, p.errors)
      else if r.name in fails then SweepState(p.rows + [r], p.count, p.errors + [FailureMessage(k, r.name, fails[r.name])])
      else SweepState(p.rows + [r.(disable := 1)], p.count + 1, p.errors)
  }

  /** The rows the sweep disables. */
  function Disabled(rows: seq<Rule>, today: int, fails: map<string, string>): seq<Rule>
  {
    Filter(rows, (r: Rule) => Expired(r, today) && r.name !in fails)
  }

  /** The expired rows whose update fails. */
  function Failed(rows: seq<Rule>, today: int, fails: map<string, string>): seq<Rule>
  {
    Filter(rows, (r: Rule) => Expired(r, today) && r.name in fails)
  }

  /** Exactly the expired rows whose update succeeds are disabled, nothing
      else changes, the count is the number of those rows and there is one
      error per failed row. */
  lemma {:induction false} SweepFacts(rows: seq<Rule>, today: int, fails: map<string, string>, k: Kind)
    ensures var s := Sweep(rows, today, fails, k);
      |s.rows| == |rows| &&
      (forall i :: 0 <= i < |rows| ==>
        s.rows[i] == if Expired(rows[i], today) && rows[i].name !in fails then rows[i].(disable := 1) else rows[i]) &&
      s.count == |Disabled(rows, today, fails)| &&
      |s.errors| == |Failed(rows, today, fails)|
  {
    if rows != [] {
      SweepFacts(rows[..|rows| - 1], today, fails, k);
    }
  }

  /** After a sweep the only expired rows left enabled are those whose
      update failed, so a sweep that fails nowhere leaves nothing for the
      next one. */
  lemma SweepLeavesOnlyFailures(rows: seq<Rule>, today: int, fails: map<string, string>, k: Kind)
    ensures var s := Sweep(rows, today, fails, k);
      (forall i :: 0 <= i < |s.rows| && Expired(s.rows[i], today) ==> s.rows[i].name in fails) &&
      (fails == map[] ==> Sweep(s.rows, today, fails, k) == SweepState(s.rows, 0, []))
  {
    SweepFacts(rows, today, fails, k);
    var s := Sweep(rows, today, fails, k);
    if fails == map[] {
      SweepUntouched(s.rows, today, fails, k);
    }
  }

  /** A sweep over rows none of which is expired changes nothing. */
  lemma {:induction false} SweepUntouched(rows: seq<Rule>, today: int, fails: map<string, string>, k: Kind)
    requires forall i :: 0 <= i < |rows| ==> !Expired(rows[i], today)
    ensures Sweep(rows, today, fails, k) == SweepState(rows, 0, [])
  {
    if rows != [] {
      SweepUntouched(rows[..|rows| - 1], today, fails, k);
      assert rows[..|rows| - 1] + [rows[|rows| - 1]] == rows;
    }
  }

  /** What one `disable_expired_*` call returns. */
  datatype Report = Report(success: bool, disabledCount: Option<nat>, errors: seq<string>, message: string)

  /** The message when nothing has expired. */
  function NothingExpired(k: Kind): string
  {
    match k
    case PricingRule => "No expired pricing rules to disable"
    case PromotionalScheme => "No expired promotional schemes to disable"
  }

  /** The summary line, with the error count when there are errors. */
  function Summary(k: Kind, count: nat, errors: nat): string
  {
    "Disabled " + NatToString(count) + " expired " + Label(k) + "(s)" +
    (if errors > 0 then " with " + NatToString(errors) + " error(s)" else "")
  }

  /** Whether the expired rows exist at all. */
  predicate AnyExpired(rows: seq<Rule>, today: int)
  {
    exists i :: 0 <= i < |rows| && Expired(rows[i], today)
  }

  /** One `disable_expired_*` call: a failing query (`queryError`) reports
      failure and changes nothing; with nothing expired it reports 0;
      otherwise it sweeps. Returns the new rows and the report. */
  function DisableExpired(rows: seq<Rule>, today: int, fails: map<string, string>, queryError: Option<string>, k: Kind): (seq<Rule>, Report)
  {
    if queryError.Some? then (rows, Report(false, None, [], queryError.value))
    else if !AnyExpired(rows, today) then (rows, Report(true, Some(0), [], NothingExpired(k)))
    else
      var s := Sweep(rows, today, fails, k);
      (s.rows, Report(true, Some(s.count), s.errors, Summary(k, s.count, |s.errors|)))
  }

  /** A call that fails to query changes nothing and reports no count;
      otherwise it reports as disabled exactly the rows it disables. */
  lemma DisableExpiredFacts(rows: seq<Rule>, today: int, fails: map<string, string>, queryError: Option<string>, k: Kind)
    ensures var r := DisableExpired(rows, today, fails, queryError, k);
      (queryError.Some? ==> r.0 == rows && !r.1.success && r.1.disabledCount == None) &&
      (queryError.None? ==>
        r.1.success && r.1.disabledCount == Some(|Disabled(rows, today, fails)|) &&
        r.0 == Sweep(rows, today, fails, k).rows)
  {
    SweepFacts(rows, today, fails, k);
    if queryError.None? && !AnyExpired(rows, today) {
      DisabledEmpty(rows, today, fails);
      SweepUntouched(rows, today, fails, k);
    }
  }

  /** The tables the sweep works on; the Promotional Scheme table may be
      missing. */
  datatype Tables = Tables(pricingRules: seq<Rule>, schemes: seq<Rule>, schemeTableExists: bool)

  /** What the master task returns. */
  datatype CleanupReport = CleanupReport(pricing: Report, schemes: Report, totalDisabled: nat)

  /** `disable_expired_promotional_schemes`: skipped when the table does not
      exist. */
  function DisableExpiredSchemes(t: Tables, today: int, fails: map<string, string>, queryError: Option<string>): (seq<Rule>, Report)
  {
    if !t.schemeTableExists then (t.schemes, Report(true, Some(0), [], "Promotional Scheme doctype not available"))
    else DisableExpired(t.schemes, today, fails, queryError, PromotionalScheme)
  }

  /** `cleanup_expired_promotions`: both sweeps; a report without a count
      counts as 0. */
  function Cleanup(
    t: Tables, today: int, ruleFails: map<string, string>, ruleQueryError: Option<string>,
    schemeFails: map<string, string>, schemeQueryError: Option<string>): (Tables, CleanupReport)
  {
    var p := DisableExpired(t.pricingRules, today, ruleFails, ruleQueryError, PricingRule);
    var s := DisableExpiredSchemes(t, today, schemeFails, schemeQueryError);
    (t.(pricingRules := p.0, schemes := s.0),
     CleanupReport(p.1, s.1, Coalesce(p.1.disabledCount, 0) + Coalesce(s.1.disabledCount, 0)))
  }

  /** The total is the number of pricing rules plus the number of schemes
      actually disabled; a missing scheme table or a failed query
      contributes nothing and leaves its table as it was. */
  lemma CleanupFacts(
    t: Tables, today: int, ruleFails: map<string, string>, ruleQueryError: Option<string>,
    schemeFails: map<string, string>, schemeQueryError: Option<string>)
    ensures var t2 := Cleanup(t, today, ruleFails, ruleQueryError, schemeFails, schemeQueryError).0;
      var c := Cleanup(t, today, ruleFails, ruleQueryError, schemeFails, schemeQueryError).1;
      c.totalDisabled ==
        (if ruleQueryError.Some? then 0 else |Disabled(t.pricingRules, today, ruleFails)|) +
        (if !t.schemeTableExists || schemeQueryError.Some? then 0 else |Disabled(t.schemes, today, schemeFails)|) &&
      (ruleQueryError.Some? ==> t2.pricingRules == t.pricingRules) &&
      (!t.schemeTableExists || schemeQueryError.Some? ==> t2.schemes == t.schemes) &&
      t2.schemeTableExists == t.schemeTableExists &&
      c.pricing.success == ruleQueryError.None? &&
      c.schemes.success == (!t.schemeTableExists || schemeQueryError.None?)
  {
    DisableExpiredFacts(t.pricingRules, today, ruleFails, ruleQueryError, PricingRule);
    DisableExpiredFacts(t.schemes, today, schemeFails, schemeQueryError, PromotionalScheme);
  }

  /** With nothing expired nothing is disabled. */
  lemma {:induction false} DisabledEmpty(rows: seq<Rule>, today: int, fails: map<string, string>)
    requires !AnyExpired(rows, today)
    ensures Disabled(rows, today, fails) == []
  {
    if rows != [] {
      var pre := rows[..|rows| - 1];
      forall i | 0 <= i < |pre|
        ensures !Expired(pre[i], today)
      {
        assert pre[i] == rows[i];
      }
      DisabledEmpty(pre, today, fails);
      assert !Expired(rows[|rows| - 1], today);
    }
  }
}

module Cleanup {
  import opened Common
  import opened CleanupModel

  /** The `for rule in expired_rules` loop on a copy of the rows. */
  method SweepRows(rows: seq<Rule>, today: int, fails: map<string, string>, k: Kind) returns (s: SweepState)
    ensures s == Sweep(rows, today, fails, k)
  {
    var out: seq<Rule> := [];
    var disabledCount := 0;
    var errors: seq<string> := [];
    var i := 0;
    while i < |rows|
      invariant 0 <= i <= |rows|
      invariant SweepState(out, disabledCount, errors) == Sweep(rows[..i], today, fails, k)
    {
      assert rows[..i + 1][..i] == rows[..i];
      var r := rows[i];
      if r.disable == 0 && r.validUpto.Some? && r.validUpto.value < today {
        if r.name in fails {
          errors := errors + ["Failed to disable " + Label(k) + " " + r.name + ": " + fails[r.name]];
          out := out + [r];
        } else {
          out := out + [r.(disable := 1)];
          disabledCount := disabledCount + 1;
        }
      } else {
        out := out + [r];
      }
      i := i + 1;
    }
    assert rows[..|rows|] == rows;
    s := SweepState(out, disabledCount, errors);
  }

  /** The Pricing Rule and Promotional Scheme tables. */
  class PromotionTables {
    var pricingRules: seq<Rule>
    var schemes: seq<Rule>
    var schemeTableExists: bool

    function State(): Tables
      reads this
    {
      Tables(pricingRules, schemes, schemeTableExists)
    }

    constructor(t: Tables)
      ensures State() == t
    {
      pricingRules := t.pricingRules;
      schemes := t.schemes;
      schemeTableExists := t.schemeTableExists;
    }

    /** `disable_expired_pricing_rules`. */
    method DisableExpiredPricingRules(today: int, fails: map<string, string>, queryError: Option<string>) returns (rep: Report)
      modifies this
      ensures (pricingRules, rep) == DisableExpired(old(pricingRules), today, fails, queryError, PricingRule)
      ensures schemes == old(schemes) && schemeTableExists == old(schemeTableExists)
    {
      if queryError.Some? {
        return Report(false, None, [], queryError.value);
      }
      if !AnyExpired(pricingRules, today) {
        return Report(true, Some(0), [], NothingExpired(PricingRule));
      }
      var s := SweepRows(pricingRules, today, fails, PricingRule);
      pricingRules := s.rows;
      rep := Report(true, Some(s.count), s.errors, Summary(PricingRule, s.count, |s.errors|));
    }

    /** `disable_expired_promotional_schemes`. */
    method DisableExpiredPromotionalSchemes(today: int, fails: map<string, string>, queryError: Option<string>) returns (rep: Report)
      modifies this
      ensures (schemes, rep) == DisableExpiredSchemes(old(State()), today, fails, queryError)
      ensures pricingRules == old(pricingRules) && schemeTableExists == old(schemeTableExists)
    {
      if !schemeTableExists {
        return Report(true, Some(0), [], "Promotional Scheme doctype not available");
      }
      if queryError.Some? {
        return Report(false, None, [], queryError.value);
      }
      if !AnyExpired(schemes, today) {
        return Report(true, Some(0), [], NothingExpired(PromotionalScheme));
      }
      var s := SweepRows(schemes, today, fails, PromotionalScheme);
      schemes := s.rows;
      rep := Report(true, Some(s.count), s.errors, Summary(PromotionalScheme, s.count, |s.errors|));
    }

    /** `cleanup_expired_promotions`. */
    method CleanupExpiredPromotions(
      today: int, ruleFails: map<string, string>, ruleQueryError: Option<string>,
      schemeFails: map<string, string>, schemeQueryError: Option<string>) returns (c: CleanupReport)
      modifies this
      ensures State() == Cleanup(old(State()), today, ruleFails, ruleQueryError, schemeFails, schemeQueryError).0
      ensures c == Cleanup(old(State()), today, ruleFails, ruleQueryError, schemeFails, schemeQueryError).1
    {
      ghost var t0 := State();
      ghost var p := DisableExpired(t0.pricingRules, today, ruleFails, ruleQueryError, PricingRule);
      ghost var s := DisableExpiredSchemes(t0, today, schemeFails, schemeQueryError);
      var pr := DisableExpiredPricingRules(today, ruleFails, ruleQueryError);
      var sr := DisableExpiredPromotionalSchemes(today, schemeFails, schemeQueryError);
      var total := (if pr.disabledCount.Some? then pr.disabledCount.value else 0) +
        (if sr.disabledCount.Some? then sr.disabledCount.value else 0);
      assert pr == p.1 && sr == s.1;
      c := CleanupReport(pr, sr, total);
      assert State() == t0.(pricingRules := p.0, schemes := s.0);
    }
  }
}
