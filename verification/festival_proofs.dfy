/** Properties of the festival decoders and of the contents comparison. */
module FestivalProofs {
  import opened Wrappers
  import opened Json
  import opened Festivals

  /** The values of `bands` that `MusicFestival.from_dict` accepts: a list of
      dicts, or an empty str or dict (both iterate to nothing). */
  predicate BandsDecodable(v: Json) {
    || (v.JArr? && forall i :: 0 <= i < |v.elems| ==> v.elems[i].JObj?)
    || v == JStr("")
    || v == JObj(map[])
  }

  /** `xs` with the elements at `i` and `j` exchanged. */
  function Swap<T>(xs: seq<T>, i: nat, j: nat): (ys: seq<T>)
    requires i < |xs| && j < |xs|
    ensures |ys| == |xs|
    ensures ys[i] == xs[j] && ys[j] == xs[i]
    ensures forall k :: 0 <= k < |xs| && k != i && k != j ==> ys[k] == xs[k]
  {
    xs[i := xs[j]][j := xs[i]]
  }

  /** The items of a dict iteration, given the keys in iteration order. */
  function KeyItems(keys: seq<string>): (items: seq<Json>)
    ensures |items| == |keys|
    ensures forall i :: 0 <= i < |keys| ==> items[i] == JStr(keys[i])
  {
    seq(|keys|, i requires 0 <= i < |keys| => JStr(keys[i]))
  }

  // ---------------------------------------------------------------------
  // Iteration
  // ---------------------------------------------------------------------

  /** Iterating a dict decodes its keys, which are all `str`: the outcome is
      the same whatever order the keys come in. */
  lemma DictIterationIgnoresKeyOrder<T>(m: map<string, Json>, keys: seq<string>, fromDict: map<string, Json> -> Result<T, PyError>)
    requires |keys| == |m|
    ensures DecodeIterable(JObj(m), fromDict) == DecodeEach(KeyItems(keys), fromDict)
  {
    var items := KeyItems(keys);
    if |keys| > 0 {
      assert Decode(items[0], fromDict) == Failure(AttributeError("str", "get"));
    }
  }

  /** A str iterates to one-character strs, which have no `.get`: only the
      empty string decodes, to an empty list. */
  lemma StrIteration<T>(s: string, fromDict: map<string, Json> -> Result<T, PyError>)
    ensures DecodeIterable(JStr(s), fromDict).Success? <==> s == ""
    ensures s == "" ==> DecodeIterable(JStr(s), fromDict) == Success([])
    ensures s != "" ==> DecodeIterable(JStr(s), fromDict) == Failure(AttributeError("str", "get"))
  {
    var items := Chars(s);
    if s != "" {
      assert Decode(items[0], fromDict) == Failure(AttributeError("str", "get"));
      var r := DecodeIterable(JStr(s), fromDict);
      var i :| FirstFailureAt(items, fromDict, i) && r.error == Decode(items[i], fromDict).error;
      assert i == 0;
    }
  }

  /** A list decodes, in order and at its own length, exactly when every
      element decodes; otherwise the first raising element's error wins. */
  lemma ListIteration<T>(xs: seq<Json>, fromDict: map<string, Json> -> Result<T, PyError>, i: nat)
    requires i < |xs|
    requires Decode(xs[i], fromDict).Failure?
    requires forall j :: 0 <= j < i ==> Decode(xs[j], fromDict).Success?
    ensures DecodeIterable(JArr(xs), fromDict) == Failure(Decode(xs[i], fromDict).error)
  {
    var r := DecodeIterable(JArr(xs), fromDict);
    var k :| FirstFailureAt(xs, fromDict, k) && r.error == Decode(xs[k], fromDict).error;
    assert k == i;
  }

  // ---------------------------------------------------------------------
  // Band.from_dict
  // ---------------------------------------------------------------------

  /** A band object without `recordLabel` decodes with that field `None`. */
  lemma MissingRecordLabelIsNone(d: map<string, Json>)
    requires "recordLabel" !in d
    ensures BandFromDict(JObj(d)) == Success(Band(Get(d, "name"), JNull))
  {
  }

  /** Keys other than `name` and `recordLabel` play no part. */
  lemma BandIgnoresOtherKeys(d1: map<string, Json>, d2: map<string, Json>)
    requires Get(d1, "name") == Get(d2, "name")
    requires Get(d1, "recordLabel") == Get(d2, "recordLabel")
    ensures BandFromDict(JObj(d1)) == BandFromDict(JObj(d2))
  {
  }

  // ---------------------------------------------------------------------
  // MusicFestival.from_dict
  // ---------------------------------------------------------------------

  /** The band list decodes exactly when `BandsDecodable` holds. */
  lemma {:induction false} BandsDecodeIff(v: Json)
    ensures DecodeIterable(v, BandFields).Success? <==> BandsDecodable(v)
  {
    match v
    case JArr(xs) =>
      forall i | 0 <= i < |xs|
        ensures Decode(xs[i], BandFields).Success? <==> xs[i].JObj?
      {
      }
    case JStr(s) =>
      StrIteration(s, BandFields);
    case _ =>
  }

  /** `MusicFestival.from_dict` raises exactly when its argument is not a
      dict, has no `bands`, or has a `bands` that does not iterate to dicts.
      A missing `name` never makes it raise. */
  lemma FestivalFailsIff(data: Json)
    ensures FestivalFromDict(data).Failure? <==>
      || !data.JObj?
      || "bands" !in data.fields
      || !BandsDecodable(data.fields["bands"])
  {
    if data.JObj? && "bands" in data.fields {
      BandsDecodeIff(data.fields["bands"]);
    }
  }

  /** A `bands` value that is not a list, str or dict raises TypeError. */
  lemma BandsNotIterable(d: map<string, Json>)
    requires "bands" in d
    requires !(d["bands"].JArr? || d["bands"].JStr? || d["bands"].JObj?)
    ensures FestivalFromDict(JObj(d)) == Failure(TypeError(TypeName(d["bands"])))
  {
  }

  /** The first element of the `bands` list that is not a dict raises
      AttributeError, whatever follows it. */
  lemma FirstBadBandRaises(d: map<string, Json>, i: nat)
    requires "bands" in d && d["bands"].JArr?
    requires i < |d["bands"].elems| && !d["bands"].elems[i].JObj?
    requires forall j :: 0 <= j < i ==> d["bands"].elems[j].JObj?
    ensures FestivalFromDict(JObj(d)) == Failure(AttributeError(TypeName(d["bands"].elems[i]), "get"))
  {
    ListIteration(d["bands"].elems, BandFields, i);
  }

  /** Removing `name` changes neither whether decoding succeeds nor the
      bands; the decoded name becomes `None`. */
  lemma NameIsOptional(d: map<string, Json>)
    ensures FestivalFromDict(JObj(d - {"name"})).Success? <==> FestivalFromDict(JObj(d)).Success?
    ensures FestivalFromDict(JObj(d)).Success? ==>
      FestivalFromDict(JObj(d - {"name"})).value == FestivalFromDict(JObj(d)).value.(name := JNull)
  {
    var d' := d - {"name"};
    assert "bands" in d' <==> "bands" in d;
    if "bands" in d {
      assert d'["bands"] == d["bands"];
    }
  }

  /** On success the band list has the length of the `bands` array and holds
      `Band.from_dict` of each element at the same position. */
  lemma BandsKeepLengthAndOrder(data: Json)
    requires FestivalFromDict(data).Success?
    requires data.fields["bands"].JArr?
    ensures |FestivalFromDict(data).value.bands| == |data.fields["bands"].elems|
    ensures forall i :: 0 <= i < |data.fields["bands"].elems| ==>
      FestivalFromDict(data).value.bands[i] == BandFromDict(data.fields["bands"].elems[i]).value
  {
    var xs := data.fields["bands"].elems;
    assert forall i :: 0 <= i < |xs| ==> BandFromDict(xs[i]) == Decode(xs[i], BandFields);
  }

  /** Keys other than `name` and `bands` play no part. */
  lemma FestivalIgnoresOtherKeys(d1: map<string, Json>, d2: map<string, Json>)
    requires Get(d1, "name") == Get(d2, "name")
    requires "bands" in d1 <==> "bands" in d2
    requires "bands" in d1 ==> d1["bands"] == d2["bands"]
    ensures FestivalFromDict(JObj(d1)) == FestivalFromDict(JObj(d2))
  {
  }

  // ---------------------------------------------------------------------
  // The contents comparison
  // ---------------------------------------------------------------------

  /** Python list `==` is equal length plus element-wise `==`, in order. */
  lemma {:induction false} ListEqElementwise<T>(a: seq<T>, b: seq<T>, eq: (T, T) -> bool)
    ensures ListEq(a, b, eq) <==> |a| == |b| && forall i :: 0 <= i < |a| ==> eq(a[i], b[i])
    decreases |a|
  {
    if |a| > 0 && |a| == |b| {
      ListEqElementwise(a[1..], b[1..], eq);
      assert forall i :: 1 <= i < |a| ==> a[1..][i - 1] == a[i] && b[1..][i - 1] == b[i];
    }
  }

  lemma BandEqReflexive(b: Band)
    ensures BandEq(b, b)
  {
    PyEqReflexive(b.name);
    PyEqReflexive(b.recordLabel);
  }

  lemma FestivalEqReflexive(f: MusicFestival)
    ensures FestivalEq(f, f)
  {
    PyEqReflexive(f.name);
    forall i | 0 <= i < |f.bands|
      ensures BandEq(f.bands[i], f.bands[i])
    {
      BandEqReflexive(f.bands[i]);
    }
    ListEqElementwise(f.bands, f.bands, BandEq);
  }

  /** The comparison is true exactly when both sides decode to lists of the
      same length whose festivals are `==` position by position. */
  lemma ContentsElementwise(actual: Json, expected: Json)
    ensures ContentsMatch(actual, expected) == Success(true) <==>
      && FestivalsFrom(actual).Success?
      && FestivalsFrom(expected).Success?
      && |FestivalsFrom(actual).value| == |FestivalsFrom(expected).value|
      && forall i :: 0 <= i < |FestivalsFrom(actual).value| ==>
           FestivalEq(FestivalsFrom(actual).value[i], FestivalsFrom(expected).value[i])
  {
    if FestivalsFrom(actual).Success? && FestivalsFrom(expected).Success? {
      ListEqElementwise(FestivalsFrom(actual).value, FestivalsFrom(expected).value, FestivalEq);
    }
  }

  /** Inputs that decode to the same festivals compare equal. */
  lemma EqualDecodingsMatch(actual: Json, expected: Json)
    requires FestivalsFrom(actual).Success?
    requires FestivalsFrom(expected) == FestivalsFrom(actual)
    ensures ContentsMatch(actual, expected) == Success(true)
  {
    var fs := FestivalsFrom(actual).value;
    forall i | 0 <= i < |fs|
      ensures FestivalEq(fs[i], fs[i])
    {
      FestivalEqReflexive(fs[i]);
    }
    ListEqElementwise(fs, fs, FestivalEq);
  }

  /** Decoding the same JSON twice and comparing gives true. */
  lemma ContentsReflexive(data: Json)
    requires FestivalsFrom(data).Success?
    ensures ContentsMatch(data, data) == Success(true)
  {
    EqualDecodingsMatch(data, data);
  }

  /** Decoded lists of different lengths compare unequal. */
  lemma LengthMismatchFails(actual: Json, expected: Json)
    requires FestivalsFrom(actual).Success? && FestivalsFrom(expected).Success?
    requires |FestivalsFrom(actual).value| != |FestivalsFrom(expected).value|
    ensures ContentsMatch(actual, expected) == Success(false)
  {
  }

  /** Exchanging two festivals that are not `==` makes the comparison false:
      the comparison is order-sensitive. */
  lemma SwapBreaksMatch(xs: seq<Json>, i: nat, j: nat)
    requires FestivalsFrom(JArr(xs)).Success?
    requires i < |xs| && j < |xs|
    requires !FestivalEq(FestivalsFrom(JArr(xs)).value[i], FestivalsFrom(JArr(xs)).value[j])
    ensures ContentsMatch(JArr(xs), JArr(Swap(xs, i, j))) == Success(false)
  {
    var ys := Swap(xs, i, j);
    var fs := FestivalsFrom(JArr(xs)).value;
    assert forall k :: 0 <= k < |ys| ==> Decode(ys[k], FestivalFields).Success? by {
      forall k | 0 <= k < |ys|
        ensures Decode(ys[k], FestivalFields).Success?
      {
        if k == i {
          assert ys[k] == xs[j];
        } else if k == j {
          assert ys[k] == xs[i];
        } else {
          assert ys[k] == xs[k];
        }
      }
    }
    var gs := FestivalsFrom(JArr(ys)).value;
    assert gs[i] == fs[j];
    ContentsElementwise(JArr(xs), JArr(ys));
  }

  // ---------------------------------------------------------------------
  // Inputs that are `==` decode to records that are `==`
  // ---------------------------------------------------------------------

  /** `.get` on two `==` dicts gives `==` values. */
  lemma GetCongruent(m: map<string, Json>, n: map<string, Json>, key: string)
    requires PyEq(JObj(m), JObj(n))
    ensures PyEq(Get(m, key), Get(n, key))
  {
    if key !in m {
      PyEqReflexive(JNull);
    }
  }

  lemma {:induction false} BandCongruent(x: Json, y: Json)
    requires PyEq(x, y)
    ensures BandFromDict(x).Success? <==> BandFromDict(y).Success?
    ensures BandFromDict(x).Success? ==> BandEq(BandFromDict(x).value, BandFromDict(y).value)
  {
    if x.JObj? {
      GetCongruent(x.fields, y.fields, "name");
      GetCongruent(x.fields, y.fields, "recordLabel");
    }
  }

  lemma {:induction false} BandsCongruent(v: Json, w: Json)
    requires PyEq(v, w)
    ensures DecodeIterable(v, BandFields).Success? <==> DecodeIterable(w, BandFields).Success?
    ensures DecodeIterable(v, BandFields).Success? ==>
      ListEq(DecodeIterable(v, BandFields).value, DecodeIterable(w, BandFields).value, BandEq)
  {
    match v
    case JArr(xs) =>
      var ys := w.elems;
      forall i | 0 <= i < |xs|
        ensures Decode(xs[i], BandFields).Success? <==> Decode(ys[i], BandFields).Success?
        ensures Decode(xs[i], BandFields).Success? ==>
          BandEq(Decode(xs[i], BandFields).value, Decode(ys[i], BandFields).value)
      {
        BandCongruent(xs[i], ys[i]);
      }
      if DecodeIterable(v, BandFields).Success? {
        ListEqElementwise(DecodeIterable(v, BandFields).value, DecodeIterable(w, BandFields).value, BandEq);
      }
    case JStr(s) =>
      if s == "" {
        StrIteration(s, BandFields);
        ListEqElementwise([], [], BandEq);
      }
    case JObj(m) =>
      assert |m.Keys| == |w.fields.Keys|;
      if |m| == 0 {
        ListEqElementwise([], [], BandEq);
      }
    case _ =>
  }

  lemma {:induction false} FestivalCongruent(x: Json, y: Json)
    requires PyEq(x, y)
    ensures FestivalFromDict(x).Success? <==> FestivalFromDict(y).Success?
    ensures FestivalFromDict(x).Success? ==> FestivalEq(FestivalFromDict(x).value, FestivalFromDict(y).value)
  {
    if x.JObj? {
      GetCongruent(x.fields, y.fields, "name");
      if "bands" in x.fields {
        BandsCongruent(x.fields["bands"], y.fields["bands"]);
      }
    }
  }

  /** A live response that is `==` to the fixture, as JSON, passes the
      assertion whenever it decodes. */
  lemma {:induction false} EqualResponsePasses(actual: Json, expected: Json)
    requires PyEq(actual, expected)
    requires FestivalsFrom(actual).Success?
    ensures ContentsMatch(actual, expected) == Success(true)
  {
    match actual
    case JArr(xs) =>
      var ys := expected.elems;
      forall i | 0 <= i < |xs|
        ensures Decode(xs[i], FestivalFields).Success? <==> Decode(ys[i], FestivalFields).Success?
        ensures Decode(xs[i], FestivalFields).Success? ==>
          FestivalEq(Decode(xs[i], FestivalFields).value, Decode(ys[i], FestivalFields).value)
      {
        FestivalCongruent(xs[i], ys[i]);
      }
      ContentsElementwise(actual, expected);
    case JStr(s) =>
      EqualDecodingsMatch(actual, expected);
    case JObj(m) =>
      assert |m.Keys| == |expected.fields.Keys|;
      EqualDecodingsMatch(actual, expected);
    case _ =>
  }

  // ---------------------------------------------------------------------
  // Concrete scenarios
  // ---------------------------------------------------------------------

  function RockFest(): Json {
    JArr([JObj(map[
      "name" := JStr("Rock Fest"),
      "bands" := JArr([JObj(map["name" := JStr("The Band"), "recordLabel" := JStr("Big Label")])])
    ])])
  }

  /** A response identical to the fixture passes; an empty response against
      a one-festival fixture fails on length. */
  lemma RockFestScenarios()
    ensures ContentsMatch(RockFest(), RockFest()) == Success(true)
    ensures ContentsMatch(JArr([]), RockFest()) == Success(false)
  {
    var f := FestivalsFrom(RockFest());
    assert f.Success?;
    ContentsReflexive(RockFest());
    LengthMismatchFails(JArr([]), RockFest());
  }

  /** Python's `==` is looser than structural equality: a festival named
      `true` equals one named `1`, so the comparison passes although the
      decoded records differ. */
  lemma BoolNameEqualsIntName()
    ensures var t := JArr([JObj(map["name" := JBool(true), "bands" := JArr([])])]);
            var one := JArr([JObj(map["name" := JNum(1), "bands" := JArr([])])]);
            && FestivalsFrom(t).Success? && FestivalsFrom(one).Success?
            && FestivalsFrom(t).value != FestivalsFrom(one).value
            && ContentsMatch(t, one) == Success(true)
  {
    var t := JArr([JObj(map["name" := JBool(true), "bands" := JArr([])])]);
    var one := JArr([JObj(map["name" := JNum(1), "bands" := JArr([])])]);
    assert FestivalsFrom(t).value[0].name == JBool(true);
    assert FestivalsFrom(one).value[0].name == JNum(1);
    ContentsElementwise(t, one);
  }
}
