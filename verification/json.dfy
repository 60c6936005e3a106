/** Already-decoded JSON values, as Python's `json` module hands them to the
    festival decoders, together with the two Python operations the decoders
    apply to them: `dict.get` with its `None` default, and `==`. */
module Json {

  /** A JSON value as a Python object: `null` is `None`, `true`/`false` are
      `bool`, integers are `int`, strings are `str`, arrays are `list` and
      objects are `dict`. */
  datatype Json =
    | JNull
    | JBool(b: bool)
    | JNum(n: int)
    | JStr(s: string)
    | JArr(elems: seq<Json>)
    | JObj(fields: map<string, Json>)

  /** The Python type name of a value, as it appears in the messages of the
      `TypeError` and `AttributeError` the decoders raise. */
  function TypeName(j: Json): (name: string)
    ensures name == "dict" <==> j.JObj?
    ensures name == "list" <==> j.JArr?
    ensures name == "str" <==> j.JStr?
  {
    match j
    case JNull => "NoneType"
    case JBool(_) => "bool"
    case JNum(_) => "int"
    case JStr(_) => "str"
    case JArr(_) => "list"
    case JObj(_) => "dict"
  }

  /** `d.get(key)`: the value stored under `key`, or `None` when the key is
      absent. A stored JSON `null` is also `None`, so the two cases give the
      same Python value. */
  function Get(d: map<string, Json>, key: string): (v: Json)
    ensures key in d ==> v == d[key]
    ensures v != JNull ==> key in d
  {
    if key in d then d[key] else JNull
  }

  /** `bool` is a subclass of `int` in Python: `True == 1` and `False == 0`. */
  predicate IsNumeric(j: Json) {
    j.JBool? || j.JNum?
  }

  function NumericValue(j: Json): int
    requires IsNumeric(j)
  {
    if j.JBool? then (if j.b then 1 else 0) else j.n
  }

  /** Python's `==` on JSON values: lists compare element by element in
      order, dicts compare key sets and the values under each key whatever
      their insertion order, and `bool` compares equal to `int`. */
  predicate PyEq(a: Json, b: Json)
    decreases a
  {
    match a
    case JNull => b.JNull?
    case JStr(s) => b.JStr? && b.s == s
    case JArr(xs) =>
      && b.JArr?
      && |xs| == |b.elems|
      && forall i :: 0 <= i < |xs| ==> PyEq(xs[i], b.elems[i])
    case JObj(m) =>
      && b.JObj?
      && m.Keys == b.fields.Keys
      && forall k :: k in m ==> PyEq(m[k], b.fields[k])
    case _ => IsNumeric(b) && NumericValue(a) == NumericValue(b)
  }

  /** The canonical representative of a value's `==` class: every `bool`
      becomes the `int` it equals, at any depth. */
  function Normalize(j: Json): (r: Json)
    ensures !r.JBool?
    ensures j.JArr? <==> r.JArr?
    ensures j.JObj? <==> r.JObj?
    ensures j.JArr? ==> |r.elems| == |j.elems|
    ensures j.JObj? ==> r.fields.Keys == j.fields.Keys
  {
    match j
    case JBool(b) => JNum(if b then 1 else 0)
    case JArr(xs) => JArr(seq(|xs|, i requires 0 <= i < |xs| => Normalize(xs[i])))
    case JObj(m) => JObj(map k | k in m :: Normalize(m[k]))
    case _ => j
  }

  /** Python's `==` on JSON values is exactly equality of normal forms. */
  lemma {:induction false} PyEqIsNormalEquality(a: Json, b: Json)
    ensures PyEq(a, b) <==> Normalize(a) == Normalize(b)
    decreases a
  {
    match a
    case JArr(xs) =>
      if b.JArr? {
        var ys := b.elems;
        forall i | 0 <= i < |xs| && i < |ys|
          ensures PyEq(xs[i], ys[i]) <==> Normalize(xs[i]) == Normalize(ys[i])
        {
          PyEqIsNormalEquality(xs[i], ys[i]);
        }
        if Normalize(a) == Normalize(b) {
          assert |xs| == |ys|;
          forall i | 0 <= i < |xs|
            ensures PyEq(xs[i], ys[i])
          {
            assert Normalize(xs[i]) == Normalize(a).elems[i] == Normalize(b).elems[i] == Normalize(ys[i]);
          }
        }
        if PyEq(a, b) {
          var na, nb := Normalize(a).elems, Normalize(b).elems;
          assert forall i | 0 <= i < |na| :: na[i] == Normalize(xs[i]) == Normalize(ys[i]) == nb[i];
          assert na == nb;
        }
      }
    case JObj(m) =>
      if b.JObj? {
        var n := b.fields;
        forall k | k in m && k in n
          ensures PyEq(m[k], n[k]) <==> Normalize(m[k]) == Normalize(n[k])
        {
          PyEqIsNormalEquality(m[k], n[k]);
        }
        if Normalize(a) == Normalize(b) {
          assert forall k | k in m :: Normalize(a).fields[k] == Normalize(b).fields[k];
          assert m.Keys == n.Keys;
          assert forall k | k in m :: PyEq(m[k], n[k]);
        }
        if PyEq(a, b) {
          var na, nb := Normalize(a).fields, Normalize(b).fields;
          assert na.Keys == nb.Keys;
          assert forall k | k in na :: na[k] == Normalize(m[k]) == Normalize(n[k]) == nb[k];
          assert na == nb;
        }
      }
    case _ =>
  }

  /** Structurally equal values are `==` in Python. */
  lemma {:induction false} PyEqReflexive(a: Json)
    ensures PyEq(a, a)
  {
    PyEqIsNormalEquality(a, a);
  }

  lemma {:induction false} PyEqSymmetric(a: Json, b: Json)
    ensures PyEq(a, b) <==> PyEq(b, a)
  {
    PyEqIsNormalEquality(a, b);
    PyEqIsNormalEquality(b, a);
  }

  lemma {:induction false} PyEqTransitive(a: Json, b: Json, c: Json)
    requires PyEq(a, b) && PyEq(b, c)
    ensures PyEq(a, c)
  {
    PyEqIsNormalEquality(a, b);
    PyEqIsNormalEquality(b, c);
    PyEqIsNormalEquality(a, c);
  }

  /** Python's `==` identifies values that are structurally distinct. */
  lemma PyEqCoarserThanEquality()
    ensures PyEq(JBool(true), JNum(1)) && JBool(true) != JNum(1)
    ensures PyEq(JArr([JBool(false)]), JArr([JNum(0)]))
  {
  }
}
