// The server-side POS Settings doctype
// (pos_next/pos_next/doctype/pos_settings/pos_settings.py): its
// validation, the per-profile lookup that creates defaults, and the
// update that saves or inserts.

module ServerSettingsModel {
  import opened Common

  /** A POS Settings document: the fields the code reads or sets, and the
      remaining fields by name. */
  datatype SettingsDoc = SettingsDoc(
    posProfile: string, enabled: int, maxDiscountAllowed: real,
    useLimitSearch: bool, searchLimit: int, rest: map<string, string>)

  /** The `settings` dict of an update; a field is `None` when its key is
      absent. */
  datatype Patch = Patch(
    posProfile: Option<string>, enabled: Option<int>, maxDiscountAllowed: Option<real>,
    useLimitSearch: Option<bool>, searchLimit: Option<int>, rest: map<string, string>)

  /** `POSSettings.validate`: the first failed check, if any. */
  function Validate(d: SettingsDoc): Option<string>
  {
    if d.maxDiscountAllowed < 0.0 || d.maxDiscountAllowed > 100.0 then Some("Max Discount Allowed must be between 0 and 100")
    else if d.useLimitSearch && d.searchLimit <= 0 then Some("Search Limit must be greater than 0")
    else None
  }

  /** A document is accepted exactly when its maximum discount lies in
      [0, 100] and, with limited search on, its search limit is
      positive. */
  lemma ValidateFacts(d: SettingsDoc)
    ensures Validate(d).None? <==>
      0.0 <= d.maxDiscountAllowed <= 100.0 && (d.useLimitSearch ==> d.searchLimit > 0)
    ensures (d.maxDiscountAllowed < 0.0 || d.maxDiscountAllowed > 100.0) ==>
      Validate(d) == Some("Max Discount Allowed must be between 0 and 100")
  {
  }

  /** `doc.update(settings)`: every key present overrides its field. */
  function Apply(d: SettingsDoc, p: Patch): SettingsDoc
  {
    SettingsDoc(
      Coalesce(p.posProfile, d.posProfile), Coalesce(p.enabled, d.enabled),
      Coalesce(p.maxDiscountAllowed, d.maxDiscountAllowed), Coalesce(p.useLimitSearch, d.useLimitSearch),
      Coalesce(p.searchLimit, d.searchLimit), d.rest + p.rest)
  }

  /** The first document of the profile, as `frappe.db.get_value` and
      `frappe.db.exists` return it. */
  function Find(docs: seq<SettingsDoc>, profile: string): (r: Option<nat>)
    ensures r.Some? ==>
      r.value < |docs| && docs[r.value].posProfile == profile &&
      forall j :: 0 <= j < r.value ==> docs[j].posProfile != profile
    ensures r.None? ==> forall j :: 0 <= j < |docs| ==> docs[j].posProfile != profile
  {
    if docs == [] then None
    else if docs[0].posProfile == profile then Some(0)
    else
      var r := Find(docs[1..], profile);
      if r.Some? then Some(r.value + 1) else None
  }

  /** Who is asking: a user of the profile, or one with the doctype
      permission. */
  datatype Access = Access(isProfileUser: bool, canRead: bool, canWrite: bool)

  /** `create_default_settings`: the doctype's blank document for the
      profile, enabled. */
  function DefaultSettings(blank: SettingsDoc, profile: string): SettingsDoc
  {
    blank.(posProfile := profile, enabled := 1)
  }

  /** `get_pos_settings`: the stored documents afterwards and the answer. No
      profile gives no settings; a profile without settings gets a new
      default document, which must pass validation to be inserted. */
  function GetPosSettings(docs: seq<SettingsDoc>, profile: Option<string>, a: Access, blank: SettingsDoc): Result<(seq<SettingsDoc>, Option<SettingsDoc>)>
  {
    if !Truthy(profile) then Ok((docs, None))
    else if !a.isProfileUser && !a.canRead then Err("You don't have access to this POS Profile")
    else
      var i := Find(docs, profile.value);
      if i.Some? then Ok((docs, Some(docs[i.value])))
      else
        var d := DefaultSettings(blank, profile.value);
        if Validate(d).Some? then Err(Validate(d).value) else Ok((docs + [d], Some(d)))
  }

  /** No profile means no settings and no change; otherwise (allowed) the
      answer is the profile's first document, or a new enabled document for
      it appended as the only change. */
  lemma GetPosSettingsFacts(docs: seq<SettingsDoc>, profile: Option<string>, a: Access, blank: SettingsDoc)
    ensures var r := GetPosSettings(docs, profile, a, blank);
      (!Truthy(profile) ==> r == Ok((docs, None))) &&
      (Truthy(profile) && !a.isProfileUser && !a.canRead ==> r.Err?) &&
      (r.Ok? && Truthy(profile) ==>
        var (docs2, s) := r.value;
        s.Some? && s.value.posProfile == profile.value &&
        (Find(docs, profile.value).Some? ==> docs2 == docs && s.value == docs[Find(docs, profile.value).value]) &&
        (Find(docs, profile.value).None? ==> docs2 == docs + [s.value] && s.value.enabled == 1))
  {
  }

  /** Asking twice changes nothing the second time and gives the same
      answer: defaults are created at most once. */
  lemma GetPosSettingsTwice(docs: seq<SettingsDoc>, profile: Option<string>, a: Access, blank: SettingsDoc)
    requires GetPosSettings(docs, profile, a, blank).Ok?
    ensures var (docs2, s) := GetPosSettings(docs, profile, a, blank).value;
      GetPosSettings(docs2, profile, a, blank) == Ok((docs2, s))
  {
    var (docs2, s) := GetPosSettings(docs, profile, a, blank).value;
    if Truthy(profile) && Find(docs, profile.value).None? {
      FindAppend(docs, s.value, profile.value);
    }
  }

  /** Appending a document of the profile to documents without one makes it
      the profile's document. */
  lemma FindAppend(docs: seq<SettingsDoc>, d: SettingsDoc, profile: string)
    requires Find(docs, profile).None? && d.posProfile == profile
    ensures Find(docs + [d], profile) == Some(|docs|)
  {
    assert (docs + [d])[|docs|] == d;
  }

  /** `update_pos_settings`: the profile's document updated and saved, or a
      new one inserted; either must pass validation. */
  function UpdatePosSettings(docs: seq<SettingsDoc>, profile: string, p: Patch, a: Access, blank: SettingsDoc): Result<(seq<SettingsDoc>, SettingsDoc)>
  {
    if !a.isProfileUser && !a.canWrite then Err("You don't have permission to update this POS Profile")
    else
      var i := Find(docs, profile);
      var d := if i.Some? then Apply(docs[i.value], p) else Apply(blank.(posProfile := profile), p);
      if Validate(d).Some? then Err(Validate(d).value)
      else if i.Some? then Ok((docs[i.value := d], d))
      else Ok((docs + [d], d))
  }

  /** An update either replaces the profile's document in place or appends
      exactly one new one, and touches no other document; the result is
      the profile's document (or a new one for the profile) patched field
      by field, and passes validation. */
  lemma UpdatePosSettingsFacts(docs: seq<SettingsDoc>, profile: string, p: Patch, a: Access, blank: SettingsDoc)
    ensures var r := UpdatePosSettings(docs, profile, p, a, blank);
      (!a.isProfileUser && !a.canWrite ==> r.Err?) &&
      (r.Ok? ==>
        var (docs2, d) := r.value;
        Validate(d).None? &&
        (p.maxDiscountAllowed.Some? ==> d.maxDiscountAllowed == p.maxDiscountAllowed.value) &&
        (p.searchLimit.Some? ==> d.searchLimit == p.searchLimit.value) &&
        (p.posProfile.None? ==> d.posProfile == profile) &&
        (Find(docs, profile).Some? ==>
          var i := Find(docs, profile).value;
          |docs2| == |docs| && docs2[i] == d && forall j :: 0 <= j < |docs| && j != i ==> docs2[j] == docs[j]) &&
        (Find(docs, profile).None? ==> docs2 == docs + [d]) &&
        Patched(if Find(docs, profile).Some? then docs[Find(docs, profile).value] else blank.(posProfile := profile), p, d))
  {
  }

  /** `doc.update(settings)` read field by field: every field the patch
      gives takes the patch's value, every other keeps the one before, and
      the other keys are merged with the patch's winning. */
  predicate Patched(before: SettingsDoc, p: Patch, d: SettingsDoc)
  {
    d.posProfile == (if p.posProfile.Some? then p.posProfile.value else before.posProfile) &&
    d.enabled == (if p.enabled.Some? then p.enabled.value else before.enabled) &&
    d.maxDiscountAllowed == (if p.maxDiscountAllowed.Some? then p.maxDiscountAllowed.value else before.maxDiscountAllowed) &&
    d.useLimitSearch == (if p.useLimitSearch.Some? then p.useLimitSearch.value else before.useLimitSearch) &&
    d.searchLimit == (if p.searchLimit.Some? then p.searchLimit.value else before.searchLimit) &&
    d.rest.Keys == before.rest.Keys + p.rest.Keys &&
    (forall k :: k in p.rest ==> d.rest[k] == p.rest[k]) &&
    (forall k :: k in before.rest && k !in p.rest ==> d.rest[k] == before.rest[k])
  }

  /** After an update that leaves the profile field alone, the lookup
      returns the updated document. */
  lemma UpdateThenGet(docs: seq<SettingsDoc>, profile: string, p: Patch, a: Access, blank: SettingsDoc)
    requires profile != "" && p.posProfile.None? && a.canRead
    requires UpdatePosSettings(docs, profile, p, a, blank).Ok?
    ensures var (docs2, d) := UpdatePosSettings(docs, profile, p, a, blank).value;
      GetPosSettings(docs2, Some(profile), a, blank) == Ok((docs2, Some(d)))
  {
    var (docs2, d) := UpdatePosSettings(docs, profile, p, a, blank).value;
    var i := Find(docs, profile);
    if i.Some? {
      var k := Find(docs2, profile);
      assert docs2[i.value] == d;
      assert k.Some? && k.value <= i.value;
    } else {
      FindAppend(docs, d, profile);
    }
  }
}

module ServerSettings {
  import opened Common
  import opened ServerSettingsModel

  /** The POS Settings table. */
  class SettingsTable {
    var docs: seq<SettingsDoc>

    constructor(initial: seq<SettingsDoc>)
      ensures docs == initial
    {
      docs := initial;
    }

    /** `get_pos_settings`, inserting the defaults when needed. */
    method GetPosSettings(profile: Option<string>, a: Access, blank: SettingsDoc) returns (r: Result<Option<SettingsDoc>>)
      modifies this
      ensures var m := ServerSettingsModel.GetPosSettings(old(docs), profile, a, blank);
        (m.Ok? ==> r == Ok(m.value.1) && docs == m.value.0) &&
        (m.Err? ==> r == Err(m.msg) && docs == old(docs))
    {
      if profile.None? || profile.value == "" {
        return Ok(None);
      }
      if !a.isProfileUser && !a.canRead {
        return Err("You don't have access to this POS Profile");
      }
      var i := Find(docs, profile.value);
      if i.Some? {
        return Ok(Some(docs[i.value]));
      }
      var d := blank.(posProfile := profile.value, enabled := 1);
      var e := Validate(d);
      if e.Some? {
        return Err(e.value);
      }
      docs := docs + [d];
      r := Ok(Some(d));
    }

    /** `update_pos_settings`: save the existing document or insert a new
        one; a validation failure stores nothing. */
    method UpdatePosSettings(profile: string, p: Patch, a: Access, blank: SettingsDoc) returns (r: Result<SettingsDoc>)
      modifies this
      ensures var m := ServerSettingsModel.UpdatePosSettings(old(docs), profile, p, a, blank);
        (m.Ok? ==> r == Ok(m.value.1) && docs == m.value.0) &&
        (m.Err? ==> r == Err(m.msg) && docs == old(docs))
    {
      if !a.isProfileUser && !a.canWrite {
        return Err("You don't have permission to update this POS Profile");
      }
      var existing := Find(docs, profile);
      var d;
      if existing.Some? {
        d := Apply(docs[existing.value], p);
      } else {
        d := blank.(posProfile := profile);
        d := Apply(d, p);
      }
      var e := Validate(d);
      if e.Some? {
        return Err(e.value);
      }
      if existing.Some? {
        docs := docs[existing.value := d];
      } else {
        docs := docs + [d];
      }
      r := Ok(d);
    }
  }
}
