/**
 * Parsed JSON values, as `JSON.parse` returns them, and the three JavaScript
 * operations the client applies to them: truthiness, property lookup and
 * `Object.keys`.
 */
module Json {
  import opened Wrappers

  /** An object keeps its members in source order. */
  datatype Json =
    | JNull
    | JBool(b: bool)
    | JNumber(n: real)
    | JString(str: string)
    | JArray(items: seq<Json>)
    | JObject(fields: seq<(string, Json)>)

  /** The five values JavaScript treats as false that a parsed body can hold. */
  const Falsy: set<Option<Json>> :=
    {None, Some(JNull), Some(JBool(false)), Some(JNumber(0.0)), Some(JString(""))}

  /** JavaScript truthiness of a value that may be undefined: arrays and objects, even empty ones, are true. */
  predicate Truthy(v: Option<Json>)
  {
    match v
    case None => false
    case Some(JNull) => false
    case Some(JBool(b)) => b
    case Some(JNumber(n)) => n != 0.0
    case Some(JString(s)) => s != ""
    case Some(_) => true
  }

  lemma TruthyIsNotFalsy(v: Option<Json>)
    ensures Truthy(v) <==> v !in Falsy
  {
  }

  /**
   * The value of member `key`; when a key occurs more than once, the last
   * occurrence wins, as it does in `JSON.parse`.
   */
  function Lookup(fields: seq<(string, Json)>, key: string): (r: Option<Json>)
    ensures r.None? <==> forall i :: 0 <= i < |fields| ==> fields[i].0 != key
    ensures r.Some? ==> exists i :: 0 <= i < |fields| && fields[i] == (key, r.value)
                          && forall j :: i < j < |fields| ==> fields[j].0 != key
  {
    if fields == [] then None
    else if fields[|fields| - 1].0 == key then Some(fields[|fields| - 1].1)
    else Lookup(fields[..|fields| - 1], key)
  }

  /**
   * `v[key]` for a property name that is neither an array index nor a built-in
   * property (every name this client reads is of that kind): a member of an
   * object, and undefined on every other value.
   */
  function Get(v: Json, key: string): (r: Option<Json>)
    ensures r.Some? ==> v.JObject? && exists i :: 0 <= i < |v.fields| && v.fields[i] == (key, r.value)
    ensures v.JObject? && (exists i :: 0 <= i < |v.fields| && v.fields[i].0 == key) ==> r.Some?
  {
    match v
    case JObject(fields) => Lookup(fields, key)
    case _ => None
  }

  /** Objects built by `JSON.parse` never repeat a key. */
  predicate DistinctKeys(v: Json)
  {
    v.JObject? ==> forall i, j :: 0 <= i < j < |v.fields| ==> v.fields[i].0 != v.fields[j].0
  }

  /**
   * `obj[key] = value` on an object's members: an existing member keeps its
   * place and takes the new value, a new member goes last.
   */
  function Put(fields: seq<(string, Json)>, key: string, value: Json): (r: seq<(string, Json)>)
    ensures Lookup(r, key) == Some(value)
    ensures forall k :: k != key ==> Lookup(r, k) == Lookup(fields, k)
  {
    if Lookup(fields, key).None? then fields + [(key, value)]
    else if fields[|fields| - 1].0 == key then fields[..|fields| - 1] + [(key, value)]
    else Put(fields[..|fields| - 1], key, value) + [fields[|fields| - 1]]
  }

  /** The character of a decimal digit. */
  function DigitChar(d: nat): (c: char)
    requires d < 10
    ensures '0' <= c <= '9'
  {
    (48 + d) as char
  }

  /** The decimal numeral of `n`, as JavaScript names an array index. */
  function Decimal(n: nat): (s: string)
    ensures |s| >= 1
    ensures forall i :: 0 <= i < |s| ==> '0' <= s[i] <= '9'
  {
    if n < 10 then [DigitChar(n)] else Decimal(n / 10) + [DigitChar(n % 10)]
  }

  /** The number a string of decimal digits denotes. */
  function DecimalValue(s: string): nat
    requires forall i :: 0 <= i < |s| ==> '0' <= s[i] <= '9'
  {
    if s == [] then 0
    else DecimalValue(s[..|s| - 1]) * 10 + ((s[|s| - 1] as int) - 48)
  }

  lemma {:induction false} DecimalRoundTrip(n: nat)
    ensures DecimalValue(Decimal(n)) == n
  {
    var s := Decimal(n);
    if n >= 10 {
      DecimalRoundTrip(n / 10);
      assert s[..|s| - 1] == Decimal(n / 10);
    }
  }

  /** Two array indices never share a property name. */
  lemma DecimalInjective(m: nat, n: nat)
    requires Decimal(m) == Decimal(n)
    ensures m == n
  {
    DecimalRoundTrip(m);
    DecimalRoundTrip(n);
  }

  /**
   * `Object.keys(v)` paired with `v[key]`: an object's members, an array's
   * elements under their indices, a string's characters under their indices,
   * and nothing for every other value.
   */
  function Entries(v: Json): (r: seq<(string, Json)>)
    ensures v.JObject? ==> r == v.fields
    ensures v.JArray? ==> |r| == |v.items| && forall i :: 0 <= i < |r| ==> r[i] == (Decimal(i), v.items[i])
    ensures v.JString? ==> |r| == |v.str| && forall i :: 0 <= i < |r| ==> r[i] == (Decimal(i), JString([v.str[i]]))
    ensures !(v.JObject? || v.JArray? || v.JString?) ==> r == []
  {
    match v
    case JObject(fields) => fields
    case JArray(items) => seq(|items|, i requires 0 <= i < |items| => (Decimal(i), items[i]))
    case JString(s) => seq(|s|, i requires 0 <= i < |s| => (Decimal(i), JString([s[i]])))
    case _ => []
  }

  /** Distinct entries of a parsed value have distinct keys. */
  lemma EntryKeysDistinct(v: Json)
    requires DistinctKeys(v)
    ensures forall i, j :: 0 <= i < j < |Entries(v)| ==> Entries(v)[i].0 != Entries(v)[j].0
  {
    var e := Entries(v);
    forall i, j | 0 <= i < j < |e|
      ensures e[i].0 != e[j].0
    {
      if v.JArray? || v.JString? {
        if e[i].0 == e[j].0 {
          DecimalInjective(i, j);
        }
      }
    }
  }
}
