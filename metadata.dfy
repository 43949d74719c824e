/**
 * The style table of the log formatter (`metadata.py`): a dictionary whose
 * values are (opening, closing) pairs.  Looking up `key` gives the opening
 * element and `/key` the closing one; a key that is absent reads as the empty
 * string, and a stored value that is false in Python's sense is returned as
 * it is, without indexing.  Storing is the ordinary dictionary update.
 */
module Metadata {
  import opened Wrappers

  /** The values a table holds: strings, tuples, `None` and integers. */
  datatype Value =
    | Str(s: string)
    | Tuple(items: seq<Value>)
    | NoneValue
    | Int(i: int)

  /** Python truthiness: empty strings and tuples, `None` and zero are false. */
  predicate Truthy(v: Value) {
    match v
    case Str(s) => s != []
    case Tuple(items) => items != []
    case NoneValue => false
    case Int(i) => i != 0
  }

  /** The exceptions a lookup can raise. */
  datatype LookupError =
    | IndexOutOfRange    // IndexError: the value has no element at that index
    | NotSubscriptable   // TypeError: the value cannot be indexed

  /** `value[i]`: indexing a string gives a one-character string. */
  function Index(v: Value, i: nat): Result<Value, LookupError> {
    match v
    case Str(s) => if i < |s| then Ok(Str([s[i]])) else Err(IndexOutOfRange)
    case Tuple(items) => if i < |items| then Ok(items[i]) else Err(IndexOutOfRange)
    case NoneValue => Err(NotSubscriptable)
    case Int(_) => Err(NotSubscriptable)
  }

  /** `__missing__(key)`: an absent key reads as the empty string. */
  function Missing(key: string): (v: Value)
    ensures !Truthy(v)
  {
    Str("")
  }

  /** Whether a lookup key asks for the closing element: it starts with `/`. */
  predicate IsClosing(key: string) {
    |key| > 0 && key[0] == '/'
  }

  /** The key actually looked up: one leading `/` removed. */
  function TagName(key: string): string {
    if IsClosing(key) then key[1..] else key
  }

  /** `Map.__getitem__(key)` */
  function Get(m: map<string, Value>, key: string): (r: Result<Value, LookupError>)
    ensures TagName(key) !in m ==> r == Ok(Str(""))
    ensures TagName(key) in m && !Truthy(m[TagName(key)]) ==> r == Ok(m[TagName(key)])
    ensures r.Err? ==> TagName(key) in m && Truthy(m[TagName(key)])
    ensures TagName(key) in m && Truthy(m[TagName(key)])
            ==> r == Index(m[TagName(key)], if IsClosing(key) then 1 else 0)
  {
    var close := IsClosing(key);
    var name := if close then key[1..] else key;
    var value := if name in m then m[name] else Missing(name);
    if Truthy(value) then Index(value, if close then 1 else 0) else Ok(value)
  }

  /** A pair stored under a key is read back as its opening element under the key and its closing element under `/key`. */
  lemma PairRoundTrip(m: map<string, Value>, key: string, open: Value, close: Value)
    requires !IsClosing(key)
    ensures Get(m[key := Tuple([open, close])], key) == Ok(open)
    ensures Get(m[key := Tuple([open, close])], "/" + key) == Ok(close)
  {
    assert TagName("/" + key) == key;
  }

  /**
   * A stored non-empty tuple gives its first element under the name and its
   * second under `/name`, or IndexError when it has only one.
   */
  lemma TupleLookup(m: map<string, Value>, name: string, items: seq<Value>)
    requires !IsClosing(name) && name in m && m[name] == Tuple(items) && items != []
    ensures Get(m, name) == Ok(items[0])
    ensures Get(m, "/" + name) == if |items| >= 2 then Ok(items[1]) else Err(IndexOutOfRange)
  {
    assert TagName("/" + name) == name;
  }

  /**
   * A stored non-empty string gives its first character under the name and
   * its second under `/name`, or IndexError when it has only one.
   */
  lemma StringLookup(m: map<string, Value>, name: string, s: string)
    requires !IsClosing(name) && name in m && m[name] == Str(s) && s != []
    ensures Get(m, name) == Ok(Str([s[0]]))
    ensures Get(m, "/" + name) == if |s| >= 2 then Ok(Str([s[1]])) else Err(IndexOutOfRange)
  {
    assert TagName("/" + name) == name;
  }

  /** A stored non-zero integer cannot be indexed: both spellings raise TypeError. */
  lemma IntegerLookup(m: map<string, Value>, name: string, i: int)
    requires !IsClosing(name) && name in m && m[name] == Int(i) && i != 0
    ensures Get(m, name) == Err(NotSubscriptable) && Get(m, "/" + name) == Err(NotSubscriptable)
  {
    assert TagName("/" + name) == name;
  }

  /** A one-element tuple has no closing element: `/key` raises IndexError. */
  lemma SingleElementHasNoClosing(m: map<string, Value>, key: string, open: Value)
    requires !IsClosing(key)
    ensures Get(m[key := Tuple([open])], key) == Ok(open)
    ensures Get(m[key := Tuple([open])], "/" + key) == Err(IndexOutOfRange)
  {
    assert TagName("/" + key) == key;
  }

  /** Only one `/` is removed: `//key` looks up `/key`, which is stored under that name if at all. */
  lemma OneSlashRemoved(m: map<string, Value>, key: string)
    ensures Get(m, "//" + key) == Get(m, "/" + ("/" + key))
    ensures TagName("//" + key) == "/" + key
  {
    assert "//" + key == "/" + ("/" + key);
    assert ("/" + ("/" + key))[1..] == "/" + key;
  }

  /** Storing under one name leaves every lookup of another name as it was. */
  lemma StoreElsewhere(m: map<string, Value>, name: string, v: Value, key: string)
    requires TagName(key) != name
    ensures Get(m[name := v], key) == Get(m, key)
  {
  }

  /**
   * The examples of the class documentation: a pair under `key`, nothing
   * under `missing`, and the string `'[]'` under the empty key, whose
   * characters serve as opening and closing elements.
   */
  lemma DocumentedExamples()
    ensures var m := map["key" := Tuple([Str("left"), Str("right")])];
            && Get(m, "key") == Ok(Str("left"))
            && Get(m, "/key") == Ok(Str("right"))
            && Get(m, "missing") == Ok(Str(""))
            && Get(m, "/missing") == Ok(Str(""))
    ensures var m := map["key" := Tuple([Str("left"), Str("right")]), "" := Str("[]")];
            && Get(m, "") == Ok(Str("["))
            && Get(m, "/") == Ok(Str("]"))
  {
    var m := map["key" := Tuple([Str("left"), Str("right")])];
    PairRoundTrip(map[], "key", Str("left"), Str("right"));
    assert map[]["key" := Tuple([Str("left"), Str("right")])] == m;
    assert "/" + "key" == "/key";
    assert TagName("/missing") == "missing";
    assert "/"[1..] == "";
  }
}
