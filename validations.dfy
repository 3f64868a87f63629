// Item hooks of pos_next/validations.py: the company check on new items
// and the company-aware item search query.

module ItemValidationModel {
  import opened Common

  const CompanyMandatory := "Company is mandatory for new items. Leave empty only for global items that were created before this validation."

  /** `validate_item`: the error raised, if any. */
  function ValidateItem(isNew: bool, customCompany: Option<string>): Option<string>
  {
    if isNew && !Truthy(customCompany) then Some(CompanyMandatory) else None
  }

  /** Only a new item without a company is refused; existing items may keep
      an empty company. */
  lemma ValidateItemFacts(isNew: bool, customCompany: Option<string>)
    ensures ValidateItem(isNew, customCompany).Some? <==> isNew && (customCompany.None? || customCompany.value == "")
    ensures !isNew ==> ValidateItem(isNew, customCompany) == None
  {
  }

  /** A value bound to a `%s` placeholder. */
  datatype Value = Text(s: string) | Int(n: int)

  /** The conditions `item_query` can put in its WHERE clause. */
  datatype Cond = NotDisabled | TextMatch(searchfield: string, txt: string) | CompanyIs(company: string)

  /** A piece of query text: literal SQL, or a `%s` placeholder. */
  datatype Seg = Lit(text: string) | Ph

  /** Query text as literal pieces and placeholders. */
  type Sql = seq<Seg>

  /** The number of placeholders. */
  function Placeholders(sql: Sql): nat
  {
    if sql == [] then 0 else Placeholders(sql[..|sql| - 1]) + (if sql[|sql| - 1].Ph? then 1 else 0)
  }

  lemma {:induction false} PlaceholdersConcat(a: Sql, b: Sql)
    ensures Placeholders(a + b) == Placeholders(a) + Placeholders(b)
  {
    if b == [] {
      assert a + b == a;
    } else {
      PlaceholdersConcat(a, b[..|b| - 1]);
      assert (a + b)[..|a + b| - 1] == a + b[..|b| - 1];
    }
  }

  lemma PlaceholdersOne(x: Seg)
    ensures Placeholders([x]) == if x.Ph? then 1 else 0
  {
    assert [x][..0] == [];
  }

  /** Counting over a piece list of up to six pieces, one piece at a time. */
  lemma PlaceholdersSpelled(a: Seg, b: Seg, c: Seg, d: Seg, e: Seg, f: Seg)
    ensures Placeholders([a, b, c]) == Placeholders([a]) + Placeholders([b]) + Placeholders([c])
    ensures Placeholders([a, b, c, d, e]) == Placeholders([a, b, c]) + Placeholders([d]) + Placeholders([e])
    ensures Placeholders([a, b, c, d, e, f]) == Placeholders([a, b, c, d, e]) + Placeholders([f])
  {
    PlaceholdersConcat([a], [b]);
    PlaceholdersConcat([a, b], [c]);
    assert [a, b] == [a] + [b];
    assert [a, b, c] == [a, b] + [c];
    PlaceholdersConcat([a, b, c], [d]);
    PlaceholdersConcat([a, b, c, d], [e]);
    assert [a, b, c, d] == [a, b, c] + [d];
    assert [a, b, c, d, e] == [a, b, c, d] + [e];
    PlaceholdersConcat([a, b, c, d, e], [f]);
    assert [a, b, c, d, e, f] == [a, b, c, d, e] + [f];
  }

  /** The SQL of a condition; the search field is interpolated as text. */
  function Render(c: Cond): Sql
  {
    match c
    case NotDisabled => [Lit("disabled = 0")]
    case TextMatch(f, _) => [Lit("(" + f + " LIKE "), Ph, Lit(" OR item_name LIKE "), Ph, Lit(")")]
    case CompanyIs(_) => [Lit("(custom_company = "), Ph, Lit(" OR custom_company IS NULL OR custom_company = '')")]
  }

  /** The values a condition binds, in placeholder order. */
  function Params(c: Cond): seq<Value>
  {
    match c
    case NotDisabled => []
    case TextMatch(_, t) => [Text("%" + t + "%"), Text("%" + t + "%")]
    case CompanyIs(co) => [Text(co)]
  }

  /** `filters.get("company") if filters else None`. */
  function FilterCompany(filters: Option<map<string, string>>): Option<string>
  {
    if filters.Some? && "company" in filters.value then Some(filters.value["company"]) else None
  }

  /** The conditions in the order they are appended. */
  function Conditions(txt: string, searchfield: string, company: Option<string>): seq<Cond>
  {
    [NotDisabled] + (if txt != "" then [TextMatch(searchfield, txt)] else []) +
    (if Truthy(company) then [CompanyIs(company.value)] else [])
  }

  function RenderAll(cs: seq<Cond>): seq<Sql>
  {
    seq(|cs|, i requires 0 <= i < |cs| => Render(cs[i]))
  }

  /** The values of the conditions, condition by condition. */
  function ParamsAll(cs: seq<Cond>): seq<Value>
  {
    if cs == [] then [] else ParamsAll(cs[..|cs| - 1]) + Params(cs[|cs| - 1])
  }

  /** `sep.join(parts)`. */
  function Join(parts: seq<Sql>, sep: Sql): Sql
  {
    if parts == [] then []
    else if |parts| == 1 then parts[0]
    else Join(parts[..|parts| - 1], sep) + sep + parts[|parts| - 1]
  }

  const QueryHead: Sql := [Lit("SELECT name, item_name, item_group FROM `tabItem` WHERE ")]
  const QueryTail: Sql := [Lit(" ORDER BY CASE WHEN name LIKE "), Ph, Lit(" THEN 0 ELSE 1 END, item_name LIMIT "), Ph, Lit(", "), Ph]
  const And: Sql := [Lit(" AND ")]

  /** The query text and its values. */
  datatype Query = Query(sql: Sql, values: seq<Value>)

  /** `item_query`: the WHERE clause joins the conditions with AND; the
      prefix match for the ordering and the page bounds come last. */
  function ItemQuery(txt: string, searchfield: string, start: int, pageLen: int, filters: Option<map<string, string>>): Query
  {
    var cs := Conditions(txt, searchfield, FilterCompany(filters));
    Query(QueryHead + Join(RenderAll(cs), And) + QueryTail,
          ParamsAll(cs) + [Text(txt + "%"), Int(start), Int(pageLen)])
  }

  /** A condition holds one placeholder per value it binds. */
  lemma RenderFacts(c: Cond)
    ensures Placeholders(Render(c)) == |Params(c)|
  {
    match c
    case NotDisabled => PlaceholdersOne(Lit("disabled = 0"));
    case TextMatch(f, _) =>
      var r := Render(c);
      PlaceholdersSpelled(r[0], r[1], r[2], r[3], r[4], Ph);
      PlaceholdersOne(r[0]); PlaceholdersOne(r[1]); PlaceholdersOne(r[2]); PlaceholdersOne(r[3]); PlaceholdersOne(r[4]);
    case CompanyIs(_) =>
      var r := Render(c);
      PlaceholdersSpelled(r[0], r[1], r[2], Ph, Ph, Ph);
      PlaceholdersOne(r[0]); PlaceholdersOne(r[1]); PlaceholdersOne(r[2]);
  }

  /** The joined conditions hold exactly as many placeholders as the values
      they bind. */
  lemma {:induction false} JoinPlaceholders(cs: seq<Cond>)
    ensures Placeholders(Join(RenderAll(cs), And)) == |ParamsAll(cs)|
  {
    if cs != [] {
      var pre := cs[..|cs| - 1];
      var last := cs[|cs| - 1];
      RenderFacts(last);
      assert RenderAll(cs)[|cs| - 1] == Render(last);
      if |cs| == 1 {
        assert pre == [];
      } else {
        JoinPlaceholders(pre);
        assert RenderAll(cs)[..|cs| - 1] == RenderAll(pre);
        var jp := Join(RenderAll(pre), And);
        PlaceholdersConcat(jp, And);
        PlaceholdersConcat(jp + And, Render(last));
      }
    }
  }

  /** The query has exactly as many placeholders as values, the values of
      each condition following the order of the conditions. */
  lemma QueryPlaceholders(txt: string, searchfield: string, start: int, pageLen: int, filters: Option<map<string, string>>)
    ensures var q := ItemQuery(txt, searchfield, start, pageLen, filters);
      Placeholders(q.sql) == |q.values|
  {
    var cs := Conditions(txt, searchfield, FilterCompany(filters));
    JoinPlaceholders(cs);
    var j := Join(RenderAll(cs), And);
    PlaceholdersConcat(QueryHead, j);
    PlaceholdersConcat(QueryHead + j, QueryTail);
    var t := QueryTail;
    PlaceholdersSpelled(t[0], t[1], t[2], t[3], t[4], t[5]);
    PlaceholdersOne(t[0]); PlaceholdersOne(t[1]); PlaceholdersOne(t[2]);
    PlaceholdersOne(t[3]); PlaceholdersOne(t[4]); PlaceholdersOne(t[5]);
    PlaceholdersOne(QueryHead[0]);
  }

  /** A join starts with its first part. */
  lemma {:induction false} JoinStartsWithFirst(parts: seq<Sql>, sep: Sql)
    requires parts != []
    ensures |parts[0]| <= |Join(parts, sep)| && Join(parts, sep)[..|parts[0]|] == parts[0]
  {
    if |parts| > 1 {
      JoinStartsWithFirst(parts[..|parts| - 1], sep);
      var j := Join(parts[..|parts| - 1], sep);
      assert (j + sep + parts[|parts| - 1])[..|parts[0]|] == j[..|parts[0]|];
    }
  }

  /** "disabled = 0" is always the first condition, and the prefix pattern,
      `start` and `page_len` are always the last three values. */
  lemma QueryShape(txt: string, searchfield: string, start: int, pageLen: int, filters: Option<map<string, string>>)
    ensures var q := ItemQuery(txt, searchfield, start, pageLen, filters);
      |q.sql| >= 2 && q.sql[..2] == QueryHead + [Lit("disabled = 0")] &&
      |q.values| >= 3 && q.values[|q.values| - 3..] == [Text(txt + "%"), Int(start), Int(pageLen)]
  {
    var cs := Conditions(txt, searchfield, FilterCompany(filters));
    JoinStartsWithFirst(RenderAll(cs), And);
    var j := Join(RenderAll(cs), And);
    var sql := QueryHead + j + QueryTail;
    assert sql[..2] == QueryHead + j[..1];
  }

  /** An Item row as the query sees it; `searchValue` is the value of the
      search field's column. */
  datatype Item = Item(name: string, itemName: string, searchValue: string, customCompany: Option<string>, disabled: int)

  /** What a condition means for a row, with the `%txt%` patterns read as
      substring tests. */
  predicate Holds(c: Cond, item: Item)
  {
    match c
    case NotDisabled => item.disabled == 0
    case TextMatch(_, t) => Contains(item.searchValue, t) || Contains(item.itemName, t)
    case CompanyIs(co) => item.customCompany == Some(co) || item.customCompany == None || item.customCompany == Some("")
  }

  /** A row is returned when every condition holds. */
  predicate Admitted(cs: seq<Cond>, item: Item)
  {
    forall i :: 0 <= i < |cs| ==> Holds(cs[i], item)
  }

  /** The selection admits exactly the enabled rows that match the text,
      when one is given, and that belong to the filter's company or to no
      company, when a company is given; without one any company passes. */
  lemma ConditionsFacts(txt: string, searchfield: string, filters: Option<map<string, string>>, item: Item)
    ensures var company := FilterCompany(filters);
      Admitted(Conditions(txt, searchfield, company), item) <==>
        item.disabled == 0 &&
        (txt != "" ==> Contains(item.searchValue, txt) || Contains(item.itemName, txt)) &&
        (Truthy(company) ==>
          item.customCompany == company || item.customCompany == None || item.customCompany == Some(""))
  {
    var company := FilterCompany(filters);
    var cs := Conditions(txt, searchfield, company);
    assert cs[0] == NotDisabled;
    if txt != "" {
      assert cs[1] == TextMatch(searchfield, txt);
    }
    if Truthy(company) {
      assert cs[|cs| - 1] == CompanyIs(company.value);
    }
  }
}

module ItemValidation {
  import opened Common
  import opened ItemValidationModel

  /** `item_query`: the conditions and values are appended step by step,
      then the query text is assembled. */
  method BuildItemQuery(txt: string, searchfield: string, start: int, pageLen: int, filters: Option<map<string, string>>) returns (q: Query)
    ensures q == ItemQuery(txt, searchfield, start, pageLen, filters)
  {
    ghost var cs: seq<Cond> := [NotDisabled];
    var conditions: seq<Sql> := [[Lit("disabled = 0")]];
    var values: seq<Value> := [];
    if txt != "" {
      conditions := conditions + [[Lit("(" + searchfield + " LIKE "), Ph, Lit(" OR item_name LIKE "), Ph, Lit(")")]];
      values := values + [Text("%" + txt + "%"), Text("%" + txt + "%")];
      cs := cs + [TextMatch(searchfield, txt)];
    }
    assert conditions == RenderAll(cs) && values == ParamsAll(cs);
    var company: Option<string> := None;
    if filters.Some? && "company" in filters.value {
      company := Some(filters.value["company"]);
    }
    if company.Some? && company.value != "" {
      conditions := conditions + [[Lit("(custom_company = "), Ph, Lit(" OR custom_company IS NULL OR custom_company = '')")]];
      values := values + [Text(company.value)];
      cs := cs + [CompanyIs(company.value)];
    }
    assert cs == Conditions(txt, searchfield, FilterCompany(filters));
    assert conditions == RenderAll(cs);
    assert values == ParamsAll(cs);
    var sql := QueryHead + Join(conditions, And) + QueryTail;
    values := values + [Text(txt + "%"), Int(start), Int(pageLen)];
    q := Query(sql, values);
  }
}
