# Festival contract decoder — Dafny model

The repository is an integration-test suite for a festival-listing HTTP API.
Its only logic is the decoding layer in `tests.py`: the `Band` and
`MusicFestival` dataclasses, their `from_dict` class methods, which turn
already-decoded JSON into records, and the contents test's assertion, which
decodes the live response and the fixture into lists of festivals and
compares them with `==`.

This project models that layer over an immutable JSON value type and proves
how it behaves.

- `wrappers.dfy` (`Wrappers`): a `Result` type. A Python exception is a
  `Failure`.
- `json.dfy` (`Json`): JSON values as Python objects (strings are
  restricted to Unicode scalar values; see "Left out"). `Get` models
  `dict.get` with its `None` default. `PyEq` models Python's `==` on these
  values. `Normalize` is an independent characterisation of `PyEq`.
- `festivals.dfy` (`Festivals`): the records, the decoders, Python's
  iteration of a value inside a list comprehension, the dataclass `__eq__`,
  and the assertion on line 63 (`ContentsMatch`).
- `festival_proofs.dfy` (`FestivalProofs`): the properties below.

How the model reads the code:

- **The field policy has two tiers.** `name` and `recordLabel` are read with
  `.get`, so an absent key gives `None`. `bands` is read with `[...]`, so an
  absent key raises `KeyError`.
- **Optional fields are stored as `Json`, with `None` as `JNull`.** In
  Python, `.get` on an absent key and on a key holding JSON `null` give the
  same `None`. An `Option<Json>` would tell those two cases apart, which
  `.get` cannot. The dataclasses do not check types, so a field can hold any JSON
  value.
- **Exceptions are modelled by kind.** They are `KeyError('bands')`, the
  `TypeError` raised when a value is not iterable, and the `AttributeError`
  raised when a value has no `.get`. Each carries the Python type name from
  the message. A list comprehension stops at its first exception, and the
  model returns that element's error.
- **Iteration follows Python.**
  - A list yields its elements.
  - A `str` yields its characters, and each character has no `.get`.
  - A `dict` yields its keys, and each key is a `str`.
  - So `bands` holding `""` or `{}` decodes to an empty band list without
    raising, because iterating them yields nothing. Every other non-list
    `bands` raises.
  - A `map` does not record the insertion order of keys.
    `DictIterationIgnoresKeyOrder` proves that the order does not matter:
    the first key already raises.
- **`==` is Python's.** `True == 1`, `False == 0`, and two dicts are equal
  whatever their insertion order. Dafny's datatype equality is stricter, and
  `BoolNameEqualsIntName` shows two decoded lists that differ structurally
  but compare equal.

## Model

| member | source | states |
|---|---|---|
| Json.Get | tests.py:18-19 | `.get` gives the stored value when the key is present. A non-`None` result means the key was present. |
| Json.PyEqIsNormalEquality | tests.py:63 | `PyEq`, Python `==` on JSON values, holds exactly when the values are equal after every `bool` is replaced by the `int` it equals. |
| Json.PyEqReflexive | tests.py:63 | Every value is `==` to itself. |
| Json.PyEqSymmetric | tests.py:63 | `==` is symmetric. |
| Json.PyEqTransitive | tests.py:63 | `==` is transitive. |
| Json.PyEqCoarserThanEquality | tests.py:63 | `True == 1` and `[False] == [0]` hold, although the values differ structurally. |
| Festivals.AsDict | tests.py:18 | The lookup `data.get` succeeds exactly on a dict, giving its entries. On anything else it raises `AttributeError` naming the value's type and `get`. |
| Festivals.BandFields | tests.py:17-20 | Building a `Band` from a dict never raises. A field is `None` exactly when its key is absent or holds `null`. |
| Festivals.BandFromDict | tests.py:15-20 | `Band.from_dict` succeeds exactly on dicts. Each field is the value under its key, or `None` if the key is absent. On a non-dict it raises `AttributeError` naming the value's type and `get`. |
| Festivals.DecodeEach | tests.py:32 | A comprehension over a list succeeds exactly when every element decodes. On success the result has the list's length, and position `i` holds element `i` decoded. On failure the error is that of the first element that fails. |
| Festivals.Chars | tests.py:32 | Iterating a `str` yields one single-character `str` per character, in order. |
| Festivals.DecodeIterable | tests.py:32 | A comprehension over any value: a value other than a list, `str` or dict raises `TypeError` with its type name. A `str` or dict succeeds exactly when empty, giving `[]`, and otherwise raises `AttributeError('str', 'get')`. A list succeeds exactly when every element decodes, keeping its length and each position. |
| Festivals.FestivalFields | tests.py:30-33 | Without a `bands` key the result is `KeyError('bands')`. On success the name is `.get('name')`. |
| Festivals.FestivalFromDict | tests.py:28-33 | A non-dict raises `AttributeError` before anything else. A dict without `bands` raises `KeyError('bands')`. |
| Festivals.FestivalsFrom | tests.py:63 | Each comprehension on line 63: over a list it succeeds exactly when every element passes `MusicFestival.from_dict`, with the list's length and `from_dict` of element `i` at position `i`. Any other value that decodes gives `[]`. |
| Festivals.ContentsMatch | tests.py:63 | The assertion raises exactly when one side fails to decode. The live response is decoded first, so its exception wins. The fixture's exception is raised only when the response decodes. Decoded lists of different lengths compare `False`. |
| FestivalProofs.DictIterationIgnoresKeyOrder | tests.py:32 | Iterating a dict in a comprehension gives the same outcome for every order of its keys. |
| FestivalProofs.StrIteration | tests.py:32 | A comprehension over a `str` succeeds exactly when the string is empty, giving `[]`. Otherwise it raises `AttributeError('str', 'get')`. |
| FestivalProofs.ListIteration | tests.py:32 | The first element that fails decides the comprehension's exception, whatever comes after it. |
| FestivalProofs.MissingRecordLabelIsNone | tests.py:18-19 | A band object without `recordLabel` decodes with `recordLabel` as `None`, not as an error. |
| FestivalProofs.BandIgnoresOtherKeys | tests.py:16-20 | Two band dicts that agree on `name` and `recordLabel` decode to equal bands. |
| FestivalProofs.BandsDecodeIff | tests.py:32 | The band list decodes exactly when `bands` is a list of dicts, `""` or `{}`. |
| FestivalProofs.FestivalFailsIff | tests.py:28-33 | `MusicFestival.from_dict` raises exactly when its argument is not a dict, `bands` is absent, or `bands` does not iterate to dicts. `name` plays no part. |
| FestivalProofs.BandsNotIterable | tests.py:32 | A `bands` that is not a list, `str` or dict raises `TypeError` with its type name. |
| FestivalProofs.FirstBadBandRaises | tests.py:32 | The first non-dict element of `bands` raises `AttributeError` with its type name. |
| FestivalProofs.NameIsOptional | tests.py:31 | Removing `name` does not change whether decoding succeeds. The decoded festival then differs only in having `name` as `None`. |
| FestivalProofs.BandsKeepLengthAndOrder | tests.py:32 | On success the band list has the length of the `bands` array, and position `i` holds `Band.from_dict` of element `i`. |
| FestivalProofs.FestivalIgnoresOtherKeys | tests.py:30-33 | Two festival dicts that agree on `name` and on `bands` decode to equal results. |
| FestivalProofs.ListEqElementwise | tests.py:63 | `ListEq`, Python list `==`, holds exactly for equal lengths with `==` at every position, in order. |
| FestivalProofs.BandEqReflexive | tests.py:10-13 | `BandEq`, the `Band` dataclass `__eq__` (field by field with `==`), is reflexive. |
| FestivalProofs.FestivalEqReflexive | tests.py:22-25 | `FestivalEq`, the `MusicFestival` dataclass `__eq__` (`name` with `==`, `bands` with list `==`), is reflexive. |
| FestivalProofs.ContentsElementwise | tests.py:63 | The assertion holds exactly when both sides decode to lists of equal length whose festivals are `==` position by position. |
| FestivalProofs.EqualDecodingsMatch | tests.py:63 | If two inputs decode to the same festivals, the assertion holds. |
| FestivalProofs.ContentsReflexive | tests.py:63 | Decoding the same JSON twice and comparing gives `True`. |
| FestivalProofs.LengthMismatchFails | tests.py:63 | Decoded lists of different lengths compare unequal. |
| FestivalProofs.SwapBreaksMatch | tests.py:63 | Swapping two festivals that are not `==` makes the comparison against the original false. |
| FestivalProofs.GetCongruent | tests.py:18-19 | `.get` of the same key on two `==` dicts gives `==` values, `None` included. |
| FestivalProofs.BandCongruent | tests.py:10-20 | `Band.from_dict` of two `==` values succeeds on both or on neither, and the bands it gives are `==`. |
| FestivalProofs.BandsCongruent | tests.py:32 | Decoding two `==` `bands` values succeeds on both or on neither, and the band lists are `==`. |
| FestivalProofs.FestivalCongruent | tests.py:22-33 | `MusicFestival.from_dict` of two `==` values succeeds on both or on neither, and the festivals are `==`. |
| FestivalProofs.EqualResponsePasses | tests.py:63 | A live response that is `==` to the fixture as JSON passes the assertion whenever it decodes. |
| FestivalProofs.RockFestScenarios | tests.py:63 | A one-festival response identical to the fixture passes. An empty response against that fixture fails. |
| FestivalProofs.BoolNameEqualsIntName | tests.py:63 | A festival named `true` compares equal to one named `1`, although the decoded records differ. |

## Left out

- The HTTP calls and the status-code and `Content-Type` assertions (tests.py:51-53, tests.py:68-70). They are network I/O against a remote service.
- The "skip when status is not 200" branch of the contents test (tests.py:60-61). It is conditioned on a live response. `ContentsMatch` models only the assertion on line 63.
- Fixture loading with `open` and `json.load` (tests.py:41-44). This is file I/O, and the JSON text parsing is done by a library. The model starts from decoded values, so duplicate keys and the insertion order of a dict's keys are not represented.
- The `unittest` harness and `setUp` (tests.py:36-39). This is test-runner plumbing.
- Strings are sequences of Unicode scalar values. The lone surrogates that Python's `json` yields for unpaired `\uD800`–`\uDFFF` escapes are not representable, so a dict key, `name` or `recordLabel` holding one, and the line-63 comparison on it, are outside the model.
- JSON numbers are integers only. Python floats, and the equality `1 == 1.0`, are not modelled.
- The identity shortcut (`x is y`) in Python's list and tuple comparison is not modelled. It changes results only for NaN floats, which are not modelled either.
