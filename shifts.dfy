// Opening a cashier shift (pos_next/api/shifts.py): the companies offered
// in the opening dialog, the lookup of the user's open shift and the
// creation of a new one with its opening balances.

module ShiftsModel {
  import opened Common

  /** A POS Profile the user is assigned to, as the dialog query returns it;
      `company` is `None` for a NULL column. */
  datatype ProfileRow = ProfileRow(name: string, company: Option<string>)

  /** The companies of the profiles: each non-empty company once, in the
      order of its first profile. */
  function Companies(profiles: seq<ProfileRow>): seq<string>
  {
    if profiles == [] then []
    else
      var prev := Companies(profiles[..|profiles| - 1]);
      var c := profiles[|profiles| - 1].company;
      if Truthy(c) && c.value !in prev then prev + [c.value] else prev
  }

  /** The index of the first profile of company `c`, or `|profiles|` when
      there is none. */
  function FirstAt(profiles: seq<ProfileRow>, c: string): (i: nat)
    ensures i <= |profiles|
    ensures i < |profiles| ==> profiles[i].company == Some(c)
    ensures forall j :: 0 <= j < i ==> profiles[j].company != Some(c)
  {
    if profiles == [] then 0
    else if profiles[0].company == Some(c) then 0
    else 1 + FirstAt(profiles[1..], c)
  }

  /** Adding a profile at the end leaves every earlier first appearance
      where it was. */
  lemma FirstAtSnoc(profiles: seq<ProfileRow>, c: string)
    requires profiles != []
    ensures var pre := profiles[..|profiles| - 1];
      if FirstAt(pre, c) < |pre| then FirstAt(profiles, c) == FirstAt(pre, c)
      else if profiles[|profiles| - 1].company == Some(c) then FirstAt(profiles, c) == |pre|
      else FirstAt(profiles, c) == |profiles|
  {
    var pre := profiles[..|profiles| - 1];
    var k := FirstAt(pre, c);
    var m := FirstAt(profiles, c);
    if k < |pre| {
      assert profiles[k] == pre[k];
      assert m <= k;
    } else {
      assert forall j :: 0 <= j < |pre| ==> profiles[j] == pre[j];
    }
  }

  /** The companies of `profiles` are distinct, are exactly the non-empty
      companies of some profile, and come in the order of their first
      profile. */
  ghost predicate CompaniesOrdered(profiles: seq<ProfileRow>, r: seq<string>)
  {
    NoDuplicates(r) &&
    (forall c :: c in r <==> c != "" && FirstAt(profiles, c) < |profiles|) &&
    (forall i, j :: 0 <= i < j < |r| ==> FirstAt(profiles, r[i]) < FirstAt(profiles, r[j]))
  }

  /** The companies are distinct, are exactly the non-empty companies of
      some profile, and come in the order of their first profile. */
  lemma {:induction false} CompaniesFacts(profiles: seq<ProfileRow>)
    ensures var r := Companies(profiles);
      NoDuplicates(r) &&
      (forall c :: c in r <==> c != "" && FirstAt(profiles, c) < |profiles|) &&
      (forall i, j :: 0 <= i < j < |r| ==> FirstAt(profiles, r[i]) < FirstAt(profiles, r[j]))
  {
    if profiles != [] {
      var pre := profiles[..|profiles| - 1];
      CompaniesFacts(pre);
      CompaniesStep(profiles, Companies(pre));
    }
  }

  /** One more profile: its company joins the list when it is new and
      non-empty. */
  lemma CompaniesStep(profiles: seq<ProfileRow>, prev: seq<string>)
    requires profiles != [] && CompaniesOrdered(profiles[..|profiles| - 1], prev)
    ensures var last := profiles[|profiles| - 1].company;
      CompaniesOrdered(profiles, if Truthy(last) && last.value !in prev then prev + [last.value] else prev)
  {
    var last := profiles[|profiles| - 1].company;
    if Truthy(last) && last.value !in prev {
      CompaniesNew(profiles, prev);
    } else {
      CompaniesSame(profiles, prev);
    }
  }

  /** A company seen before keeps its first index when a profile is added. */
  lemma FirstAtKept(profiles: seq<ProfileRow>, prev: seq<string>, c: string)
    requires profiles != [] && CompaniesOrdered(profiles[..|profiles| - 1], prev) && c in prev
    ensures FirstAt(profiles, c) == FirstAt(profiles[..|profiles| - 1], c) < |profiles| - 1
  {
    FirstAtSnoc(profiles, c);
  }

  lemma CompaniesNew(profiles: seq<ProfileRow>, prev: seq<string>)
    requires profiles != [] && CompaniesOrdered(profiles[..|profiles| - 1], prev)
    requires Truthy(profiles[|profiles| - 1].company) && profiles[|profiles| - 1].company.value !in prev
    ensures CompaniesOrdered(profiles, prev + [profiles[|profiles| - 1].company.value])
  {
    var n := |profiles|;
    var x := profiles[n - 1].company.value;
    var r := prev + [x];
    FirstAtSnoc(profiles, x);
    assert FirstAt(profiles, x) == n - 1;
    forall c | c in r
      ensures c != "" && FirstAt(profiles, c) < n
    {
      if c != x {
        FirstAtKept(profiles, prev, c);
      }
    }
    forall c | c != "" && FirstAt(profiles, c) < n
      ensures c in r
    {
      FirstAtSnoc(profiles, c);
    }
    forall i, j | 0 <= i < j < |r|
      ensures r[i] != r[j] && FirstAt(profiles, r[i]) < FirstAt(profiles, r[j])
    {
      FirstAtKept(profiles, prev, r[i]);
      if j < |prev| {
        FirstAtKept(profiles, prev, r[j]);
      }
    }
  }

  lemma CompaniesSame(profiles: seq<ProfileRow>, prev: seq<string>)
    requires profiles != [] && CompaniesOrdered(profiles[..|profiles| - 1], prev)
    requires !(Truthy(profiles[|profiles| - 1].company) && profiles[|profiles| - 1].company.value !in prev)
    ensures CompaniesOrdered(profiles, prev)
  {
    var n := |profiles|;
    forall c | c in prev
      ensures c != "" && FirstAt(profiles, c) < n
    {
      FirstAtKept(profiles, prev, c);
    }
    forall c | c != "" && FirstAt(profiles, c) < n
      ensures c in prev
    {
      FirstAtSnoc(profiles, c);
    }
    forall i, j | 0 <= i < j < |prev|
      ensures FirstAt(profiles, prev[i]) < FirstAt(profiles, prev[j])
    {
      FirstAtKept(profiles, prev, prev[i]);
      FirstAtKept(profiles, prev, prev[j]);
    }
  }



  /** A closing shift reference is "not set" when it is NULL or empty. */
  predicate IsOpen(s: OpeningShift, user: string)
  {
    s.user == user && !Truthy(s.closingShift) && s.docstatus == 1 && s.status == "Open"
  }

  /** A row of a shift's opening balances. */
  datatype BalanceRow = BalanceRow(modeOfPayment: Option<string>, amount: real)

  /** A submitted or draft POS Opening Shift. */
  datatype OpeningShift = OpeningShift(
    name: string, user: string, posProfile: string, company: string,
    periodStart: int, closingShift: Option<string>, docstatus: int, status: string,
    balances: seq<BalanceRow>)

  /** The user's open shifts in table order. */
  function OpenShifts(shifts: seq<OpeningShift>, user: string): seq<OpeningShift>
  {
    Filter(shifts, (s: OpeningShift) => IsOpen(s, user))
  }

  /** The shift with the latest start; among equal starts, the first. */
  function Latest(shifts: seq<OpeningShift>): (r: OpeningShift)
    requires shifts != []
    ensures r in shifts
    ensures forall s :: s in shifts ==> s.periodStart <= r.periodStart
  {
    if |shifts| == 1 then shifts[0]
    else
      var best := Latest(shifts[..|shifts| - 1]);
      assert forall s :: s in shifts ==> s in shifts[..|shifts| - 1] || s == shifts[|shifts| - 1];
      if shifts[|shifts| - 1].periodStart > best.periodStart then shifts[|shifts| - 1] else best
  }

  /** A POS Profile document. */
  datatype Profile = Profile(name: string, company: string)

  /** The documents the lookup returns: the shift, its profile and the
      profile's company. */
  datatype ShiftData = ShiftData(shift: OpeningShift, profile: Profile, company: string)

  /** The documents `frappe.get_doc` can load. */
  datatype Docs = Docs(profiles: map<string, Profile>, companies: set<string>)

  /** `check_opening_shift`: no user means the session user; loading a
      missing profile or company fails. */
  function CheckOpeningShift(shifts: seq<OpeningShift>, user: Option<string>, sessionUser: string, docs: Docs): Result<Option<ShiftData>>
  {
    var u := if Truthy(user) then user.value else sessionUser;
    var open := OpenShifts(shifts, u);
    if open == [] then Ok(None)
    else
      var s := Latest(open);
      if s.posProfile !in docs.profiles then Err("POS Profile " + s.posProfile + " not found")
      else if docs.profiles[s.posProfile].company !in docs.companies then
        Err("Company " + docs.profiles[s.posProfile].company + " not found")
      else Ok(Some(ShiftData(s, docs.profiles[s.posProfile], docs.profiles[s.posProfile].company)))
  }

  /** There is no shift exactly when the user has no open shift; otherwise
      the shift is an open shift of the user that started no earlier than
      any other, with its own profile. */
  lemma CheckOpeningShiftFacts(shifts: seq<OpeningShift>, user: Option<string>, sessionUser: string, docs: Docs)
    ensures var u := if Truthy(user) then user.value else sessionUser;
      var r := CheckOpeningShift(shifts, user, sessionUser, docs);
      (r == Ok(None) <==> forall s :: s in shifts ==> !IsOpen(s, u)) &&
      (r.Ok? && r.value.Some? ==>
        var d := r.value.value;
        d.shift in shifts && IsOpen(d.shift, u) &&
        (forall s :: s in shifts && IsOpen(s, u) ==> s.periodStart <= d.shift.periodStart) &&
        d.shift.posProfile in docs.profiles && d.profile == docs.profiles[d.shift.posProfile] &&
        d.company == d.profile.company && d.company in docs.companies)
  {
    var u := if Truthy(user) then user.value else sessionUser;
    FilterMembers(shifts, (s: OpeningShift) => IsOpen(s, u));
    var open := OpenShifts(shifts, u);
    if open != [] {
      assert open[0] in open;
    }
  }

  /** An opening balance as the client sends it; `openingAmount` is `None`
      when the key is missing. */
  datatype BalanceInput = BalanceInput(modeOfPayment: Option<string>, openingAmount: Option<real>)

  /** The balance rows stored for the inputs. */
  function BalanceRows(details: seq<BalanceInput>): seq<BalanceRow>
  {
    seq(|details|, i requires 0 <= i < |details| => BalanceRow(details[i].modeOfPayment, Coalesce(details[i].openingAmount, 0.0)))
  }

  /** One row per input, in order, carrying its mode of payment and its
      opening amount, 0 when missing. */
  lemma BalanceRowsFacts(details: seq<BalanceInput>)
    ensures var rows := BalanceRows(details);
      |rows| == |details| &&
      forall i :: 0 <= i < |details| ==>
        rows[i].modeOfPayment == details[i].modeOfPayment &&
        (details[i].openingAmount.Some? ==> rows[i].amount == details[i].openingAmount.value) &&
        (details[i].openingAmount.None? ==> rows[i].amount == 0.0)
  {
  }

  /** What a successful creation stores and returns. */
  datatype Created = Created(shifts: seq<OpeningShift>, data: ShiftData)

  /** `create_opening_shift`: refused while the session user has an open
      shift; otherwise a submitted open shift starting `now`, whose name
      the naming series supplies as `newName`. A failure after the insert
      rolls the request back, so nothing is stored. */
  function CreateOpeningShift(
    shifts: seq<OpeningShift>, posProfile: string, company: string, details: seq<BalanceInput>,
    sessionUser: string, now: int, newName: string, docs: Docs): Result<Created>
  {
    var existing := CheckOpeningShift(shifts, Some(sessionUser), sessionUser, docs);
    if existing.Err? then Err(existing.msg)
    else if existing.value.Some? then Err("You already have an open shift: " + existing.value.value.shift.name)
    else
      var s := OpeningShift(newName, sessionUser, posProfile, company, now, None, 1, "Open", BalanceRows(details));
      if posProfile !in docs.profiles then Err("POS Profile " + posProfile + " not found")
      else if company !in docs.companies then Err("Company " + company + " not found")
      else Ok(Created(shifts + [s], ShiftData(s, docs.profiles[posProfile], company)))
  }

  /** A shift is created only when the session user has no open shift, and
      it is then appended, open, submitted and owned by that user. */
  lemma CreateOpeningShiftFacts(
    shifts: seq<OpeningShift>, posProfile: string, company: string, details: seq<BalanceInput>,
    sessionUser: string, now: int, newName: string, docs: Docs)
    ensures var r := CreateOpeningShift(shifts, posProfile, company, details, sessionUser, now, newName, docs);
      ((exists s :: s in shifts && IsOpen(s, sessionUser)) ==> r.Err?) &&
      (r.Ok? ==>
        (forall s :: s in shifts ==> !IsOpen(s, sessionUser)) &&
        r.value.shifts[..|shifts|] == shifts && |r.value.shifts| == |shifts| + 1 &&
        var n := r.value.shifts[|shifts|];
        n == r.value.data.shift && IsOpen(n, sessionUser) && n.periodStart == now &&
        n.posProfile == posProfile && n.company == company && n.balances == BalanceRows(details))
  {
    CheckOpeningShiftFacts(shifts, Some(sessionUser), sessionUser, docs);
    if sessionUser == "" {
      CheckOpeningShiftFacts(shifts, None, sessionUser, docs);
    }
  }

  /** After a shift is created the lookup finds exactly that shift (it fails
      only when the profile's own company cannot be loaded), so a second
      creation for the same user is refused. */
  lemma CreateThenCheck(
    shifts: seq<OpeningShift>, posProfile: string, company: string, details: seq<BalanceInput>,
    sessionUser: string, now: int, newName: string, details2: seq<BalanceInput>, now2: int, newName2: string, docs: Docs)
    requires CreateOpeningShift(shifts, posProfile, company, details, sessionUser, now, newName, docs).Ok?
    ensures var c := CreateOpeningShift(shifts, posProfile, company, details, sessionUser, now, newName, docs).value;
      var k := CheckOpeningShift(c.shifts, Some(sessionUser), sessionUser, docs);
      (k.Ok? <==> c.data.profile.company in docs.companies) &&
      (k.Ok? ==> k.value == Some(ShiftData(c.data.shift, c.data.profile, c.data.profile.company))) &&
      CreateOpeningShift(c.shifts, posProfile, company, details2, sessionUser, now2, newName2, docs).Err?
  {
    var c := CreateOpeningShift(shifts, posProfile, company, details, sessionUser, now, newName, docs).value;
    CreateOpeningShiftFacts(shifts, posProfile, company, details, sessionUser, now, newName, docs);
    var n := c.shifts[|shifts|];
    var p := (s: OpeningShift) => IsOpen(s, sessionUser);
    assert c.shifts == shifts + [n];
    assert c.shifts[..|c.shifts| - 1] == shifts;
    FilterMembers(shifts, p);
    assert Filter(shifts, p) == [];
    assert OpenShifts(c.shifts, sessionUser) == [n];
    CreateOpeningShiftFacts(c.shifts, posProfile, company, details2, sessionUser, now2, newName2, docs);
    assert n in c.shifts;
  }
}

module Shifts {
  import opened Common
  import opened ShiftsModel

  /** The `company_names` loop of `get_opening_dialog_data`. */
  method CompanyNames(profiles: seq<ProfileRow>) returns (names: seq<string>)
    ensures names == Companies(profiles)
  {
    names := [];
    var i := 0;
    while i < |profiles|
      invariant 0 <= i <= |profiles|
      invariant names == Companies(profiles[..i])
    {
      assert profiles[..i + 1][..i] == profiles[..i];
      var c := profiles[i].company;
      if c.Some? && c.value != "" && c.value !in names {
        names := names + [c.value];
      }
      i := i + 1;
    }
    assert profiles[..|profiles|] == profiles;
  }

  /** The `formatted_balance_details` loop of `create_opening_shift`. */
  method FormatBalanceDetails(details: seq<BalanceInput>) returns (rows: seq<BalanceRow>)
    ensures rows == BalanceRows(details)
  {
    rows := [];
    var i := 0;
    while i < |details|
      invariant 0 <= i <= |details|
      invariant rows == BalanceRows(details[..i])
    {
      var d := details[i];
      rows := rows + [BalanceRow(d.modeOfPayment, if d.openingAmount.Some? then d.openingAmount.value else 0.0)];
      i := i + 1;
      assert BalanceRows(details[..i]) == BalanceRows(details[..i - 1]) + [rows[i - 1]];
    }
    assert details[..|details|] == details;
  }

  /** The POS Opening Shift table. */
  class ShiftTable {
    var shifts: seq<OpeningShift>

    constructor(initial: seq<OpeningShift>)
      ensures shifts == initial
    {
      shifts := initial;
    }

    /** `create_opening_shift` against the table: on success the new shift
        is stored, on failure the table is as it was. */
    method CreateOpeningShift(
      posProfile: string, company: string, details: seq<BalanceInput>,
      sessionUser: string, now: int, newName: string, docs: Docs) returns (r: Result<ShiftData>)
      modifies this
      ensures var m := ShiftsModel.CreateOpeningShift(old(shifts), posProfile, company, details, sessionUser, now, newName, docs);
        (r.Ok? <==> m.Ok?) && (m.Ok? ==> r.value == m.value.data && shifts == m.value.shifts) &&
        (m.Err? ==> r == Err(m.msg) && shifts == old(shifts))
    {
      var existing := CheckOpeningShift(shifts, Some(sessionUser), sessionUser, docs);
      if existing.Err? {
        return Err(existing.msg);
      }
      if existing.value.Some? {
        return Err("You already have an open shift: " + existing.value.value.shift.name);
      }
      var rows := FormatBalanceDetails(details);
      var s := OpeningShift(newName, sessionUser, posProfile, company, now, None, 1, "Open", rows);
      var saved := shifts;
      shifts := shifts + [s];
      if posProfile !in docs.profiles {
        shifts := saved;
        return Err("POS Profile " + posProfile + " not found");
      }
      if company !in docs.companies {
        shifts := saved;
        return Err("Company " + company + " not found");
      }
      r := Ok(ShiftData(s, docs.profiles[posProfile], company));
    }
  }
}
