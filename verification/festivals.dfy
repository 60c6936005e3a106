/** The record types `Band` and `MusicFestival`, their `from_dict` decoders,
    and the decode-and-compare expression of the festival contents test. */
module Festivals {
  import opened Wrappers
  import opened Json

  /** The Python exceptions decoding can raise. */
  datatype PyError =
      /** `d["bands"]` on a dict without that key. */
    | KeyError(key: string)
      /** `for x in v` on a value that is not iterable:
          "'<typeName>' object is not iterable". */
    | TypeError(typeName: string)
      /** `v.get(...)` on a value without that method:
          "'<typeName>' object has no attribute '<attr>'". */
    | AttributeError(typeName: string, attr: string)

  /** The `Band` dataclass. Its fields are not type-checked, so each holds
      whatever Python value the decoder read, `None` (JNull) included. */
  datatype Band = Band(name: Json, recordLabel: Json)

  /** The `MusicFestival` dataclass. */
  datatype MusicFestival = MusicFestival(name: Json, bands: seq<Band>)

  /** The attribute lookup `data.get`: only a `dict` has it. */
  function AsDict(data: Json): (r: Result<map<string, Json>, PyError>)
    ensures r.Success? <==> data.JObj?
    ensures r.Success? ==> r.value == data.fields
    ensures r.Failure? ==> r.error == AttributeError(TypeName(data), "get")
  {
    if data.JObj? then Success(data.fields) else Failure(AttributeError(TypeName(data), "get"))
  }

  /** `cls(...)` in `from_dict`, applied to the dict: a decoder that starts
      with `data.get` and continues with `fromDict` once that succeeded. */
  function Decode<T>(data: Json, fromDict: map<string, Json> -> Result<T, PyError>): Result<T, PyError>
  {
    var d :- AsDict(data);
    fromDict(d)
  }

  /** The body of `Band.from_dict` once `data.get` exists: both fields are
      read with `.get`, so building the record never raises. */
  function BandFields(d: map<string, Json>): (r: Result<Band, PyError>)
    ensures r.Success?
    ensures r.value.name == JNull <==> "name" !in d || d["name"] == JNull
    ensures r.value.recordLabel == JNull <==> "recordLabel" !in d || d["recordLabel"] == JNull
  {
    Success(Band(name := Get(d, "name"), recordLabel := Get(d, "recordLabel")))
  }

  /** `Band.from_dict(data)`: succeeds on every dict, with each field the
      value under its key or `None` when the key is absent; raises
      AttributeError on anything else. */
  function BandFromDict(data: Json): (r: Result<Band, PyError>)
    ensures r.Success? <==> data.JObj?
    ensures r.Failure? ==> r.error == AttributeError(TypeName(data), "get")
    ensures r.Success? ==> ("name" in data.fields ==> r.value.name == data.fields["name"])
    ensures r.Success? ==> ("name" !in data.fields ==> r.value.name == JNull)
    ensures r.Success? ==> ("recordLabel" in data.fields ==> r.value.recordLabel == data.fields["recordLabel"])
    ensures r.Success? ==> ("recordLabel" !in data.fields ==> r.value.recordLabel == JNull)
  {
    Decode(data, BandFields)
  }

  /** Index `i` is where a left-to-right pass over `items` raises first. */
  ghost predicate FirstFailureAt<T>(items: seq<Json>, fromDict: map<string, Json> -> Result<T, PyError>, i: int) {
    && 0 <= i < |items|
    && Decode(items[i], fromDict).Failure?
    && forall j :: 0 <= j < i ==> Decode(items[j], fromDict).Success?
  }

  /** `[decode(x) for x in items]` over a list: every element decoded, in
      order, stopping at the first exception. */
  function DecodeEach<T>(items: seq<Json>, fromDict: map<string, Json> -> Result<T, PyError>): (r: Result<seq<T>, PyError>)
    ensures r.Success? <==> forall i :: 0 <= i < |items| ==> Decode(items[i], fromDict).Success?
    ensures r.Success? ==> |r.value| == |items|
    ensures r.Success? ==> forall i :: 0 <= i < |items| ==> r.value[i] == Decode(items[i], fromDict).value
    ensures r.Failure? ==> exists i :: FirstFailureAt(items, fromDict, i) && r.error == Decode(items[i], fromDict).error
    decreases |items|
  {
    if items == [] then Success([])
    else
      var head :- Decode(items[0], fromDict);
      var tail :- DecodeEach(items[1..], fromDict);
      Success([head] + tail)
  }

  /** The items Python yields when iterating a `str`: its characters, each
      a one-character `str`. */
  function Chars(s: string): (items: seq<Json>)
    ensures |items| == |s|
    ensures forall i :: 0 <= i < |s| ==> items[i] == JStr([s[i]])
  {
    seq(|s|, i requires 0 <= i < |s| => JStr([s[i]]))
  }

  /** `[decode(x) for x in v]` for an arbitrary JSON value `v`. A list yields
      its elements and a str its characters. A dict yields its keys in
      insertion order, which a `map` does not record; every key is a `str`,
      which has no `.get`, so a non-empty dict raises at its first key
      whichever key that is (see `DictIterationIgnoresKeyOrder`). Any other
      value is not iterable. */
  function DecodeIterable<T>(v: Json, fromDict: map<string, Json> -> Result<T, PyError>): (r: Result<seq<T>, PyError>)
    ensures !(v.JArr? || v.JStr? || v.JObj?) ==> r == Failure(TypeError(TypeName(v)))
    ensures v.JStr? ==> (r.Success? <==> v.s == "")
    ensures v.JObj? ==> (r.Success? <==> |v.fields| == 0)
    ensures (v.JStr? || v.JObj?) && r.Success? ==> r.value == []
    ensures (v.JStr? || v.JObj?) && r.Failure? ==> r.error == AttributeError("str", "get")
    ensures v.JArr? ==> (r.Success? <==> forall i :: 0 <= i < |v.elems| ==> Decode(v.elems[i], fromDict).Success?)
    ensures v.JArr? && r.Success? ==> |r.value| == |v.elems|
    ensures v.JArr? && r.Success? ==>
      forall i :: 0 <= i < |v.elems| ==> r.value[i] == Decode(v.elems[i], fromDict).value
  {
    match v
    case JArr(xs) => DecodeEach(xs, fromDict)
    case JStr(s) => DecodeEach(Chars(s), fromDict)
    case JObj(m) => if |m| == 0 then Success([]) else Failure(AttributeError("str", "get"))
    case _ => Failure(TypeError(TypeName(v)))
  }

  /** The body of `MusicFestival.from_dict` once `data.get` exists: `name` is
      optional, `bands` is required and decoded element by element. */
  function FestivalFields(d: map<string, Json>): (r: Result<MusicFestival, PyError>)
    ensures "bands" !in d ==> r == Failure(KeyError("bands"))
    ensures r.Success? ==> r.value.name == Get(d, "name")
  {
    var name := Get(d, "name");
    if "bands" !in d then Failure(KeyError("bands"))
    else
      var bands :- DecodeIterable(d["bands"], BandFields);
      Success(MusicFestival(name := name, bands := bands))
  }

  /** `MusicFestival.from_dict(data)`. */
  function FestivalFromDict(data: Json): (r: Result<MusicFestival, PyError>)
    ensures !data.JObj? ==> r == Failure(AttributeError(TypeName(data), "get"))
    ensures data.JObj? && "bands" !in data.fields ==> r == Failure(KeyError("bands"))
  {
    Decode(data, FestivalFields)
  }

  /** `[MusicFestival.from_dict(f) for f in data]`. */
  function FestivalsFrom(data: Json): (r: Result<seq<MusicFestival>, PyError>)
    ensures data.JArr? ==> (r.Success? <==> forall i :: 0 <= i < |data.elems| ==> FestivalFromDict(data.elems[i]).Success?)
    ensures data.JArr? && r.Success? ==> |r.value| == |data.elems|
    ensures data.JArr? && r.Success? ==>
      forall i :: 0 <= i < |data.elems| ==> r.value[i] == FestivalFromDict(data.elems[i]).value
    ensures !data.JArr? && r.Success? ==> r.value == []
  {
    DecodeIterable(data, FestivalFields)
  }

  /** Python's `==` on two lists: equal lengths and, position by position,
      `eq` on the elements. */
  predicate ListEq<T>(a: seq<T>, b: seq<T>, eq: (T, T) -> bool)
    decreases |a|
  {
    && |a| == |b|
    && (|a| == 0 || (eq(a[0], b[0]) && ListEq(a[1..], b[1..], eq)))
  }

  /** The dataclass `__eq__` of `Band`: field by field, with Python's `==`. */
  predicate BandEq(a: Band, b: Band) {
    PyEq(a.name, b.name) && PyEq(a.recordLabel, b.recordLabel)
  }

  /** The dataclass `__eq__` of `MusicFestival`. */
  predicate FestivalEq(a: MusicFestival, b: MusicFestival) {
    PyEq(a.name, b.name) && ListEq(a.bands, b.bands, BandEq)
  }

  /** The assertion of the contents test: both JSON values decoded as lists
      of festivals (the live response first, then the fixture) and compared
      with `==`. A raised exception is a `Failure`; `Success(false)` is a
      failed assertion. */
  function ContentsMatch(actual: Json, expected: Json): (r: Result<bool, PyError>)
    ensures r.Success? <==> FestivalsFrom(actual).Success? && FestivalsFrom(expected).Success?
    ensures FestivalsFrom(actual).Failure? ==> r == Failure(FestivalsFrom(actual).error)
    ensures FestivalsFrom(actual).Success? && FestivalsFrom(expected).Failure? ==>
      r == Failure(FestivalsFrom(expected).error)
    ensures r.Success? && |FestivalsFrom(actual).value| != |FestivalsFrom(expected).value| ==> !r.value
  {
    var got :- FestivalsFrom(actual);
    var want :- FestivalsFrom(expected);
    Success(ListEq(got, want, FestivalEq))
  }
}
