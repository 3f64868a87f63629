// Shared vocabulary for the POSNext model: optional values, results, the
// JavaScript coercions the client code leans on (`||`, `??`, truthiness),
// ASCII case folding and a few string helpers.

module Common {

  datatype Option<T> = None | Some(value: T)

  datatype Result<T> = Ok(value: T) | Err(msg: string)

  /** The JavaScript `a || d` on a numeric field. `None` stands for
      `undefined`, `null` and `NaN`; `0` is falsy as well. */
  function OrNum(a: Option<real>, d: real): (r: real)
    ensures r == d || (a.Some? && r == a.value && r != 0.0)
    ensures a.Some? && a.value != 0.0 ==> r == a.value
  {
    if a.Some? && a.value != 0.0 then a.value else d
  }

  /** A JavaScript numeric field that can also be absent (`undefined`) or
      `null`; these differ for `!== undefined` tests. */
  datatype JsNum = Undef | Null | Val(v: real)

  /** `n ?? d`. */
  function Nullish(n: JsNum, d: real): (r: real)
    ensures n.Val? ==> r == n.v
    ensures !n.Val? ==> r == d
  {
    if n.Val? then n.v else d
  }

  /** `n || d`: `undefined`, `null` and `0` fall through. */
  function JsOr(n: JsNum, d: real): (r: real)
    ensures n.Val? && n.v != 0.0 ==> r == n.v
    ensures !(n.Val? && n.v != 0.0) ==> r == d
  {
    if n.Val? && n.v != 0.0 then n.v else d
  }

  /** The JavaScript `a || d` on two reals that are always present
      (`0` is the only falsy value). */
  function Or(a: real, d: real): (r: real)
    ensures a != 0.0 ==> r == a
    ensures a == 0.0 ==> r == d
  {
    if a != 0.0 then a else d
  }

  /** The JavaScript `a ?? d`: only `null`/`undefined` fall through. */
  function Coalesce<T>(a: Option<T>, d: T): (r: T)
    ensures a.Some? ==> r == a.value
    ensures a.None? ==> r == d
  {
    if a.Some? then a.value else d
  }

  /** The JavaScript `a || b` on two optional strings: a missing or empty
      string is falsy. */
  function OrStr(a: Option<string>, b: Option<string>): (r: Option<string>)
    ensures Truthy(a) ==> r == a
    ensures !Truthy(a) ==> r == b
  {
    if Truthy(a) then a else b
  }

  /** Truthiness of an optional string. */
  predicate Truthy(a: Option<string>)
  {
    a.Some? && a.value != ""
  }

  function MaxReal(a: real, b: real): (r: real)
    ensures r >= a && r >= b && (r == a || r == b)
  {
    if a >= b then a else b
  }

  function MinReal(a: real, b: real): (r: real)
    ensures r <= a && r <= b && (r == a || r == b)
  {
    if a <= b then a else b
  }

  function AbsReal(a: real): (r: real)
    ensures r >= 0.0 && (r == a || r == -a)
  {
    if a < 0.0 then -a else a
  }

  /** ASCII lower-casing of one character. */
  function LowerChar(c: char): (r: char)
    ensures 'A' <= c <= 'Z' ==> r as int == c as int + 32
    ensures !('A' <= c <= 'Z') ==> r == c
    ensures !('A' <= r <= 'Z')
  {
    if 'A' <= c <= 'Z' then (c as int + 32) as char else c
  }

  /** ASCII upper-casing of one character. */
  function UpperChar(c: char): (r: char)
    ensures 'a' <= c <= 'z' ==> r as int == c as int - 32
    ensures !('a' <= c <= 'z') ==> r == c
    ensures !('a' <= r <= 'z')
  {
    if 'a' <= c <= 'z' then (c as int - 32) as char else c
  }

  /** `String.prototype.toLowerCase` restricted to ASCII letters. */
  function ToLower(s: string): (r: string)
    ensures |r| == |s|
    ensures forall i :: 0 <= i < |s| ==> r[i] == LowerChar(s[i])
  {
    if s == [] then [] else [LowerChar(s[0])] + ToLower(s[1..])
  }

  /** `toUpperCase` restricted to ASCII letters. */
  function ToUpper(s: string): (r: string)
    ensures |r| == |s|
    ensures forall i :: 0 <= i < |s| ==> r[i] == UpperChar(s[i])
  {
    if s == [] then [] else [UpperChar(s[0])] + ToUpper(s[1..])
  }

  lemma ToLowerIdempotent(s: string)
    ensures ToLower(ToLower(s)) == ToLower(s)
  {
    var once := ToLower(s);
    var twice := ToLower(once);
    assert forall i :: 0 <= i < |s| ==> twice[i] == once[i];
  }

  predicate StartsWith(s: string, p: string)
  {
    |p| <= |s| && s[..|p|] == p
  }

  /** `s.includes(t)`. */
  predicate Contains(s: string, t: string)
    decreases |s|
  {
    StartsWith(s, t) || (|s| > 0 && Contains(s[1..], t))
  }

  function DigitChar(d: nat): (c: char)
    requires d < 10
    ensures '0' <= c <= '9'
  {
    ['0', '1', '2', '3', '4', '5', '6', '7', '8', '9'][d]
  }

  /** Decimal rendering of a natural number, without leading zeros. */
  function NatToString(n: nat): (s: string)
    ensures |s| >= 1
    ensures forall i :: 0 <= i < |s| ==> '0' <= s[i] <= '9'
    ensures n > 0 ==> s[0] != '0'
    decreases n
  {
    if n < 10 then [DigitChar(n)] else NatToString(n / 10) + [DigitChar(n % 10)]
  }

  /** `new Set(a).size` style count of distinct keys. */
  predicate NoDuplicates<T(==)>(s: seq<T>)
  {
    forall i, j :: 0 <= i < j < |s| ==> s[i] != s[j]
  }

  /** The position of the last occurrence of `x` in `xs`, if any. */
  function LastIndexOf<T(==)>(xs: seq<T>, x: T): (r: Option<nat>)
    ensures r.Some? ==> r.value < |xs| && xs[r.value] == x && forall k :: r.value < k < |xs| ==> xs[k] != x
    ensures r.None? <==> forall k :: 0 <= k < |xs| ==> xs[k] != x
  {
    if xs == [] then None
    else if xs[|xs| - 1] == x then Some(|xs| - 1)
    else LastIndexOf(xs[..|xs| - 1], x)
  }

  /** A JavaScript `Map` with string keys: its values and the order in
      which its keys were first inserted. */
  datatype JsMap<V> = JsMap(keys: seq<string>, vals: map<string, V>)

  ghost predicate JsMapValid<V>(m: JsMap<V>)
  {
    NoDuplicates(m.keys) && forall k :: k in m.vals <==> k in m.keys
  }

  /** `map.set(key, value)`: a new key goes last, an existing one keeps its
      place. */
  function MapSet<V>(m: JsMap<V>, key: string, value: V): JsMap<V>
  {
    if key in m.vals then JsMap(m.keys, m.vals[key := value]) else JsMap(m.keys + [key], m.vals[key := value])
  }

  /** `map.set` keeps the map well formed, holds the new value, leaves every
      other key as it was and grows the map only for a new key. */
  lemma MapSetFacts<V>(m: JsMap<V>, key: string, value: V)
    requires JsMapValid(m)
    ensures var n := MapSet(m, key, value);
      JsMapValid(n) && key in n.vals && n.vals[key] == value &&
      (forall k :: k != key ==> (k in n.vals <==> k in m.vals) && (k in m.vals ==> n.vals[k] == m.vals[k])) &&
      |n.keys| == |m.keys| + (if key in m.vals then 0 else 1)
  {
    if key !in m.vals {
      var e := m.keys + [key];
      forall i, j | 0 <= i < j < |e|
        ensures e[i] != e[j]
      {
        if j == |e| - 1 {
          assert e[i] in m.keys;
        }
      }
    }
  }

  /** The values of a map in insertion order, as `Array.from(map.values())`. */
  function Values<V>(m: JsMap<V>): (vs: seq<V>)
    requires JsMapValid(m)
    ensures |vs| == |m.keys| && forall i :: 0 <= i < |m.keys| ==> vs[i] == m.vals[m.keys[i]]
  {
    seq(|m.keys|, i requires 0 <= i < |m.keys| => m.vals[m.keys[i]])
  }

  /** `s.slice(0, n)`, also a query's `.limit(n)`. */
  function Take<T>(s: seq<T>, n: nat): (r: seq<T>)
    ensures |r| == (if |s| < n then |s| else n) && r == s[..|r|]
  {
    if |s| < n then s else s[..n]
  }

  /** `s.filter(p)`, keeping order. */
  function Filter<T>(s: seq<T>, p: T -> bool): (r: seq<T>)
    ensures |r| <= |s|
  {
    if s == [] then [] else Filter(s[..|s| - 1], p) + (if p(s[|s| - 1]) then [s[|s| - 1]] else [])
  }

  /** The filter keeps exactly the elements that pass the test. */
  lemma {:induction false} FilterMembers<T>(s: seq<T>, p: T -> bool)
    ensures forall x :: x in Filter(s, p) <==> x in s && p(x)
  {
    if s != [] {
      FilterMembers(s[..|s| - 1], p);
      assert s == s[..|s| - 1] + [s[|s| - 1]];
    }
  }

  function SumReals(s: seq<real>): real
  {
    if s == [] then 0.0 else s[0] + SumReals(s[1..])
  }

  lemma {:induction false} SumRealsAppend(s: seq<real>, x: real)
    ensures SumReals(s + [x]) == SumReals(s) + x
  {
    if s == [] {
      assert s + [x] == [x];
    } else {
      assert (s + [x])[1..] == s[1..] + [x];
      SumRealsAppend(s[1..], x);
    }
  }

  lemma {:induction false} SumRealsConcat(a: seq<real>, b: seq<real>)
    ensures SumReals(a + b) == SumReals(a) + SumReals(b)
  {
    if a == [] {
      assert a + b == b;
    } else {
      assert (a + b)[1..] == a[1..] + b;
      SumRealsConcat(a[1..], b);
    }
  }

  /** 10 to the power `d`. */
  function Pow10(d: nat): (p: nat)
    ensures p >= 1
  {
    if d == 0 then 1 else 10 * Pow10(d - 1)
  }
}
