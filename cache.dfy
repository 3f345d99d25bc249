/**
 * The caching helpers of cache.py: the two key builders, which decide what
 * part of an endpoint call reaches the library's `default_key_builder`, and
 * `JsonCoder`, which flattens ORM rows before `json.dumps` and parses
 * cached payloads back.
 *
 * `default_key_builder`, `json.dumps`/`json.loads`, `str` and UTF-8
 * encoding are library code; they appear here as function-valued
 * parameters about which nothing is assumed unless a lemma says so.
 */
module Cache {
  import opened Base

  newtype byte = x: int | 0 <= x < 256

  /** One column of a mapped row: its name in the table and the row's value for it. */
  datatype Column = Column(name: string, value: PyValue)

  /** The Python values this code handles. Dictionary keys are strings. */
  datatype PyValue =
    | PyNone
    | PyBool(b: bool)
    | PyInt(i: int)
    | PyStr(s: string)
    | PyBytes(bytes: seq<byte>)
    | PyList(items: seq<PyValue>)
    | PyDict(entries: seq<(string, PyValue)>)
      /** An ORM-mapped object (it has `__table__`), seen through its table's columns in order. */
    | PyRow(columns: seq<Column>)
      /**
       * Any other object, known by its identity: a date, the database
       * session, a pydantic filter. None of these defines `__bool__` or
       * `__len__`, so each is truthy.
       */
    | PyObject(identity: string)

  /** Python truthiness. */
  predicate Truthy(v: PyValue)
  {
    match v
    case PyNone => false
    case PyBool(b) => b
    case PyInt(i) => i != 0
    case PyStr(s) => s != ""
    case PyBytes(bs) => bs != []
    case PyList(items) => items != []
    case PyDict(entries) => entries != []
    case PyRow(_) => true
    case PyObject(_) => true
  }

  // ---------------------------------------------------------------------
  // Key builders
  // ---------------------------------------------------------------------

  /**
   * `default_key_builder(func, namespace, args=..., kwargs=...)`: the function
   * is known by its qualified name.
   */
  type KeyBuilder = (string, string, seq<PyValue>, PyValue) -> string

  /** `kwargs.get(name)`: the value of a keyword argument, `None` when absent. */
  function Get(kwargs: map<string, PyValue>, name: string): PyValue
  {
    if name in kwargs then kwargs[name] else PyNone
  }

  /**
   * The `kwargs` that `trading_key_builder` hands to the default builder:
   * `data` always, `limit` only when it is truthy, nothing else.
   */
  function TradingKeyArguments(kwargs: map<string, PyValue>): (r: PyValue)
    ensures r.PyDict? && |r.entries| >= 1 && r.entries[0] == ("data", Get(kwargs, "data"))
    ensures Truthy(Get(kwargs, "limit")) ==> r.entries == [("data", Get(kwargs, "data")), ("limit", Get(kwargs, "limit"))]
    ensures !Truthy(Get(kwargs, "limit")) ==> r.entries == [("data", Get(kwargs, "data"))]
  {
    var data := Get(kwargs, "data");
    var limit := Get(kwargs, "limit");
    if Truthy(limit) then PyDict([("data", data), ("limit", limit)])
    else PyDict([("data", data)])
  }

  /**
   * `trading_key_builder(func, namespace, *args, kwargs=...)`, where `kwargs`
   * is the endpoint call's keyword arguments; positional arguments are
   * always replaced by `()`.
   */
  function TradingKeyBuilder(defaultKeyBuilder: KeyBuilder, func: string, namespace: string,
                             args: seq<PyValue>, kwargs: map<string, PyValue>): (key: string)
    ensures key == defaultKeyBuilder(func, namespace, [], TradingKeyArguments(kwargs))
  {
    defaultKeyBuilder(func, namespace, [], TradingKeyArguments(kwargs))
  }

  /**
   * Two endpoint calls hand the default builder the same arguments exactly
   * when they agree on `data` and either both limits are falsy or both are
   * the same truthy limit.
   */
  lemma TradingKeyArgumentsAgree(kwargs1: map<string, PyValue>, kwargs2: map<string, PyValue>)
    ensures TradingKeyArguments(kwargs1) == TradingKeyArguments(kwargs2) <==>
      && Get(kwargs1, "data") == Get(kwargs2, "data")
      && Truthy(Get(kwargs1, "limit")) == Truthy(Get(kwargs2, "limit"))
      && (Truthy(Get(kwargs1, "limit")) ==> Get(kwargs1, "limit") == Get(kwargs2, "limit"))
  {
    var a, b := TradingKeyArguments(kwargs1), TradingKeyArguments(kwargs2);
    if a == b {
      assert a.entries[0] == b.entries[0];
      assert |a.entries| == |b.entries|;
      if Truthy(Get(kwargs1, "limit")) {
        assert a.entries[1] == b.entries[1];
      }
    }
  }

  /** Arguments other than `data` and `limit`, such as the database session, never affect the key. */
  lemma TradingKeyIgnoresOtherArguments(defaultKeyBuilder: KeyBuilder, func: string, namespace: string,
                                        args1: seq<PyValue>, kwargs1: map<string, PyValue>,
                                        args2: seq<PyValue>, kwargs2: map<string, PyValue>)
    requires Get(kwargs1, "data") == Get(kwargs2, "data")
    requires Get(kwargs1, "limit") == Get(kwargs2, "limit")
    ensures TradingKeyBuilder(defaultKeyBuilder, func, namespace, args1, kwargs1)
         == TradingKeyBuilder(defaultKeyBuilder, func, namespace, args2, kwargs2)
  {
  }

  /** An omitted limit and an explicitly falsy one (`None`, `0`, ...) give the same key. */
  lemma TradingKeyFalsyLimit(defaultKeyBuilder: KeyBuilder, func: string, namespace: string,
                             args: seq<PyValue>, kwargs: map<string, PyValue>)
    requires !Truthy(Get(kwargs, "limit"))
    ensures TradingKeyBuilder(defaultKeyBuilder, func, namespace, args, kwargs)
         == TradingKeyBuilder(defaultKeyBuilder, func, namespace, args, kwargs - {"limit"})
         == defaultKeyBuilder(func, namespace, [], PyDict([("data", Get(kwargs, "data"))]))
  {
  }

  /**
   * `last_dates_key_builder(func, namespace, *args, kwargs=...)`: the raw
   * `limit` value itself, not wrapped in a dictionary, is passed as the
   * default builder's `kwargs`, with `args=()`.
   */
  function LastDatesKeyBuilder(defaultKeyBuilder: KeyBuilder, func: string, namespace: string,
                               args: seq<PyValue>, kwargs: map<string, PyValue>): (key: string)
    ensures key == defaultKeyBuilder(func, namespace, [], Get(kwargs, "limit"))
  {
    defaultKeyBuilder(func, namespace, [], Get(kwargs, "limit"))
  }

  /** The last-dates key depends on the `limit` argument alone. */
  lemma LastDatesKeyOnlyLimit(defaultKeyBuilder: KeyBuilder, func: string, namespace: string,
                              args1: seq<PyValue>, kwargs1: map<string, PyValue>,
                              args2: seq<PyValue>, kwargs2: map<string, PyValue>)
    requires Get(kwargs1, "limit") == Get(kwargs2, "limit")
    ensures LastDatesKeyBuilder(defaultKeyBuilder, func, namespace, args1, kwargs1)
         == LastDatesKeyBuilder(defaultKeyBuilder, func, namespace, args2, kwargs2)
  {
  }

  // ---------------------------------------------------------------------
  // JsonCoder
  // ---------------------------------------------------------------------

  /** The library functions the coder calls. */
  datatype JsonLibrary = JsonLibrary(
    /** `json.dumps(x, default=str)` */
    dumps: PyValue -> string,
    /** `json.loads(s)`; `None` when it raises */
    loads: string -> Option<PyValue>,
    /** `str(x)`, the fallback `dumps` applies to values JSON cannot represent */
    toStr: PyValue -> string,
    /** `s.encode()` */
    encodeUtf8: string -> seq<byte>,
    /** `b.decode()`; `None` when it raises */
    decodeUtf8: seq<byte> -> Option<string>)

  /** What `decode` raises. */
  datatype DecodeError = UnicodeDecodeError | JsonDecodeError

  /** `_model_to_dict`: a mapped row becomes a column-name-to-value dictionary; anything else is kept. */
  function ModelToDict(model: PyValue): (r: PyValue)
    ensures model.PyRow? ==>
      && r.PyDict? && |r.entries| == |model.columns|
      && forall i :: 0 <= i < |r.entries| ==>
           r.entries[i] == (model.columns[i].name, model.columns[i].value)
    ensures !model.PyRow? ==> r == model
  {
    match model
    case PyRow(columns) => PyDict(seq(|columns|, i requires 0 <= i < |columns| => (columns[i].name, columns[i].value)))
    case _ => model
  }

  /** Whether `value` has `__iter__` and is neither `str` nor `bytes`. */
  predicate IsIterable(value: PyValue)
  {
    value.PyList? || value.PyDict?
  }

  /** What iterating over `value` yields: a list's items, a dictionary's keys. */
  function Elements(value: PyValue): (r: seq<PyValue>)
    requires IsIterable(value)
    ensures value.PyList? ==> r == value.items
    ensures value.PyDict? ==>
      && |r| == |value.entries|
      && forall i :: 0 <= i < |r| ==> r[i] == PyStr(value.entries[i].0)
  {
    match value
    case PyList(items) => items
    case PyDict(entries) => seq(|entries|, i requires 0 <= i < |entries| => PyStr(entries[i].0))
  }

  /** The value `encode` hands to `json.dumps` (cache.py:20-23). */
  function Flatten(value: PyValue): (r: PyValue)
    ensures IsIterable(value) ==>
      && r.PyList? && |r.items| == |Elements(value)|
      && forall i :: 0 <= i < |r.items| ==> r.items[i] == ModelToDict(Elements(value)[i])
    ensures !IsIterable(value) ==> r == ModelToDict(value)
  {
    if IsIterable(value) then
      var xs := Elements(value);
      PyList(seq(|xs|, i requires 0 <= i < |xs| => ModelToDict(xs[i])))
    else ModelToDict(value)
  }

  /** `JsonCoder.encode`: the UTF-8 bytes of the JSON text of the flattened value. */
  function Encode(json: JsonLibrary, value: PyValue): (r: seq<byte>)
    ensures r == json.encodeUtf8(json.dumps(Flatten(value)))
  {
    json.encodeUtf8(json.dumps(Flatten(value)))
  }

  /** `JsonCoder.decode`: a dictionary is returned as is, text and bytes are parsed, anything else gives `None`. */
  function Decode(json: JsonLibrary, value: PyValue): (r: Result<PyValue, DecodeError>)
    ensures value.PyDict? ==> r == Ok(value)
    ensures value.PyStr? ==> r == ParseResult(json.loads(value.s))
    ensures value.PyBytes? ==>
      r == match json.decodeUtf8(value.bytes)
           case None => Err(UnicodeDecodeError)
           case Some(text) => ParseResult(json.loads(text))
    ensures !(value.PyDict? || value.PyStr? || value.PyBytes?) ==> r == Ok(PyNone)
  {
    match value
    case PyDict(_) => Ok(value)
    case PyBytes(bs) =>
      (match json.decodeUtf8(bs)
       case None => Err(UnicodeDecodeError)
       case Some(s) => ParseResult(json.loads(s)))
    case PyStr(s) => ParseResult(json.loads(s))
    case _ => Ok(PyNone)
  }

  /** The outcome of `json.loads`: the parsed value, or the error it raises. */
  function ParseResult(parsed: Option<PyValue>): Result<PyValue, DecodeError>
  {
    match parsed
    case None => Err(JsonDecodeError)
    case Some(x) => Ok(x)
  }

  // ---------------------------------------------------------------------
  // The round trip through JSON
  // ---------------------------------------------------------------------

  /** Every dictionary inside `x` has distinct keys, as a Python dictionary does. */
  predicate DistinctKeys(x: PyValue)
  {
    match x
    case PyList(items) => forall i :: 0 <= i < |items| ==> DistinctKeys(items[i])
    case PyDict(entries) =>
      && (forall i, j :: 0 <= i < j < |entries| ==> entries[i].0 != entries[j].0)
      && (forall i :: 0 <= i < |entries| ==> DistinctKeys(entries[i].1))
    case _ => true
  }

  /** Whether `x` is built only from values JSON represents natively. */
  predicate JsonNative(x: PyValue)
  {
    match x
    case PyNone => true
    case PyBool(_) => true
    case PyInt(_) => true
    case PyStr(_) => true
    case PyList(items) => forall i :: 0 <= i < |items| ==> JsonNative(items[i])
    case PyDict(entries) => forall i :: 0 <= i < |entries| ==> JsonNative(entries[i].1)
    case _ => false
  }

  /**
   * What `json.loads(json.dumps(x, default=str))` gives back: native values
   * unchanged, anything else replaced by its `str`.
   */
  function JsonView(x: PyValue, toStr: PyValue -> string): PyValue
  {
    match x
    case PyNone => x
    case PyBool(_) => x
    case PyInt(_) => x
    case PyStr(_) => x
    case PyList(items) => PyList(seq(|items|, i requires 0 <= i < |items| => JsonView(items[i], toStr)))
    case PyDict(entries) =>
      PyDict(seq(|entries|, i requires 0 <= i < |entries| => (entries[i].0, JsonView(entries[i].1, toStr))))
    case _ => PyStr(toStr(x))
  }

  /** The JSON view of a natively representable value is the value itself. */
  lemma {:induction false} JsonViewOfNative(x: PyValue, toStr: PyValue -> string)
    requires JsonNative(x)
    ensures JsonView(x, toStr) == x
  {
    match x
    case PyList(items) =>
      forall i | 0 <= i < |items| ensures JsonView(items[i], toStr) == items[i] {
        JsonViewOfNative(items[i], toStr);
      }
    case PyDict(entries) =>
      forall i | 0 <= i < |entries| ensures JsonView(entries[i].1, toStr) == entries[i].1 {
        JsonViewOfNative(entries[i].1, toStr);
      }
    case _ =>
  }

  /** The library behaves as JSON does: UTF-8 decoding undoes encoding and `loads` undoes `dumps`. */
  ghost predicate Faithful(json: JsonLibrary)
  {
    && (forall s :: json.decodeUtf8(json.encodeUtf8(s)) == Some(s))
    && (forall x :: DistinctKeys(x) ==> json.loads(json.dumps(x)) == Some(JsonView(x, json.toStr)))
  }

  /**
   * `decode(encode(v))` is the flattened form of `v`, with every value JSON
   * cannot represent replaced by its `str`.
   */
  lemma RoundTrip(json: JsonLibrary, v: PyValue)
    requires Faithful(json)
    requires DistinctKeys(Flatten(v))
    ensures Decode(json, PyBytes(Encode(json, v))) == Ok(JsonView(Flatten(v), json.toStr))
  {
  }

  /** When the flattened value is natively representable, `decode(encode(v))` is exactly the flattened value. */
  lemma RoundTripNative(json: JsonLibrary, v: PyValue)
    requires Faithful(json)
    requires DistinctKeys(Flatten(v)) && JsonNative(Flatten(v))
    ensures Decode(json, PyBytes(Encode(json, v))) == Ok(Flatten(v))
  {
    RoundTrip(json, v);
    JsonViewOfNative(Flatten(v), json.toStr);
  }
}
