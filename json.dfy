/** JSON values as Python's `json` module hands them over, with the two
    Python operations the carrier code applies to them: `dict.get` and
    truthiness. */
module Json {
  import opened Basics
  import opened Text
  import opened Money

  /** A number's value is the `Decimal` that `Decimal(str(x))` yields;
      objects keep their keys in document order. */
  datatype Json = JNull | JBool(b: bool) | JNum(num: Dec) | JStr(str: string) | JArr(items: seq<Json>) | JObj(fields: seq<(string, Json)>)

  /** `obj.get(key)` on an object: the value of the last occurrence of the
      key (a later duplicate overwrites an earlier one when decoding), and
      `null` (Python's `None`) when the key is absent. */
  function Get(fields: seq<(string, Json)>, key: string): (r: Json)
    ensures r != JNull ==> exists i :: 0 <= i < |fields| && fields[i] == (key, r)
    ensures (forall i :: 0 <= i < |fields| ==> fields[i].0 != key) ==> r == JNull
  {
    if fields == [] then JNull
    else if fields[|fields| - 1].0 == key then fields[|fields| - 1].1
    else Get(fields[..|fields| - 1], key)
  }

  /** Python's `bool(x)`: `None`, `False`, zero, and empty strings, lists and
      objects are falsy. */
  predicate Truthy(j: Json)
  {
    match j
    case JNull => false
    case JBool(b) => b
    case JNum(d) => d.units != 0
    case JStr(s) => s != ""
    case JArr(a) => a != []
    case JObj(f) => f != []
  }

  /** `a or b`. */
  function Or(a: Json, b: Json): (r: Json)
    ensures Truthy(a) ==> r == a
    ensures !Truthy(a) ==> r == b
  {
    if Truthy(a) then a else b
  }

  /** `(x or {}).get(key)` on a value: `None` stands for the exception a
      truthy non-object raises. */
  function GetOrEmpty(x: Json, key: string): (r: Option<Json>)
    ensures !Truthy(x) ==> r == Some(JNull)
    ensures x.JObj? ==> r == Some(Get(x.fields, key))
    ensures Truthy(x) && !x.JObj? ==> r.None?
  {
    if !Truthy(x) then Some(JNull)
    else if x.JObj? then Some(Get(x.fields, key))
    else None
  }

  /** `data.get(key) or (data.get("data") or {}).get(key)` on a response
      body; `None` stands for an exception (a body or nested `data` that is
      not an object). */
  function TopOrNested(data: Json, key: string): (r: Option<Json>)
    ensures !data.JObj? ==> r.None?
    ensures data.JObj? && Truthy(Get(data.fields, key)) ==> r == Some(Get(data.fields, key))
  {
    if !data.JObj? then None
    else
      var top := Get(data.fields, key);
      if Truthy(top) then Some(top)
      else GetOrEmpty(Get(data.fields, "data"), key)
  }

  /** `Decimal(str(x))`: a number keeps its value, a string must be a
      plain decimal, and anything else (`True`, a list, an object) does not
      parse. */
  function DecimalOf(j: Json): (r: Option<Dec>)
    ensures j.JNum? ==> r == Some(j.num)
    ensures j.JStr? ==> r == ParseDecimal(j.str)
    ensures !j.JNum? && !j.JStr? ==> r.None?
  {
    match j
    case JNum(d) => Some(d)
    case JStr(s) => ParseDecimal(s)
    case _ => None
  }

  /** `str(x)` for the scalar values an AWB code can be; a list or an
      object stands for its non-empty `repr`, whose text is not modelled. */
  function StrOf(j: Json): (s: string)
    ensures Truthy(j) ==> s != ""
    ensures j.JStr? ==> s == j.str
  {
    match j
    case JStr(s) => s
    case JNum(d) => DecToString(d)
    case JBool(b) => if b then "True" else "False"
    case JNull => "None"
    case JArr(_) => "[...]"
    case JObj(_) => "{...}"
  }

  /** An object without its `null` members, keeping the others in order:
      `{k: v for k, v in payload.items() if v is not None}`. */
  function RemoveNulls(fields: seq<(string, Json)>): (r: seq<(string, Json)>)
    ensures forall i :: 0 <= i < |r| ==> r[i].1 != JNull
    ensures forall p :: p in r <==> p in fields && p.1 != JNull
    ensures |r| <= |fields|
  {
    if fields == [] then []
    else RemoveNulls(fields[..|fields| - 1]) + (if fields[|fields| - 1].1 == JNull then [] else [fields[|fields| - 1]])
  }

  /** A Python dictionary has each key once. */
  predicate KeysDistinct(fields: seq<(string, Json)>)
  {
    forall i, j :: 0 <= i < j < |fields| ==> fields[i].0 != fields[j].0
  }

  /** Removing nulls changes nothing the receiver reads: every key keeps its
      value, and a key whose value was `null` now reads as absent, which
      `get` treats the same way. */
  lemma {:induction false} RemoveNullsKeepsGet(fields: seq<(string, Json)>, key: string)
    requires KeysDistinct(fields)
    ensures Get(RemoveNulls(fields), key) == Get(fields, key)
    decreases |fields|
  {
    if fields != [] {
      var init := fields[..|fields| - 1];
      var last := fields[|fields| - 1];
      assert KeysDistinct(init) by {
        forall i, j | 0 <= i < j < |init| ensures init[i].0 != init[j].0 { assert init[i] == fields[i] && init[j] == fields[j]; }
      }
      RemoveNullsKeepsGet(init, key);
      var r := RemoveNulls(init);
      if last.1 != JNull {
        assert (r + [last])[..|r + [last]| - 1] == r;
      } else {
        assert RemoveNulls(fields) == r;
        if last.0 == key {
          forall i | 0 <= i < |init| ensures init[i].0 != key { assert init[i] == fields[i]; }
        }
      }
    }
  }
}
