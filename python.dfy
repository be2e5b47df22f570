/**
 * The Python objects that a JSON request body decodes to, and the parts of
 * Python's semantics that the predict handler applies to them: the `in`
 * operator, subscription by a string key, `len`, `isinstance(x, (int, float))`
 * and `all(...)` over an iterable.  Where Python raises, the operation yields
 * a `PyError` whose `Message` is what `str(e)` gives (CPython 3.11 to 3.13
 * wording).
 */
module Python {
  import opened Wrappers

  /** A Python float: the decoder also yields infinities (an overflowing literal) and NaN. */
  datatype Double = Finite(r: real) | PosInf | NegInf | NaN

  /** A decoded JSON value, as the Python object the JSON decoder builds. */
  datatype Json =
    | Null                              // None
    | Bool(b: bool)                     // bool (a subclass of int)
    | Int(i: int)                       // int (unbounded, like Python's)
    | Float(f: Double)                  // float
    | Str(s: string)                    // str
    | Array(items: seq<Json>)           // list, in document order
    | Object(fields: map<string, Json>) // dict; a repeated key keeps its last value

  /** The exceptions the handler's own statements can raise. */
  datatype PyError =
    | NotContainer(typeName: string)  // `key in x` on a non-container
    | StrIndex                        // `s[key]` on a str
    | ListIndex                       // `xs[key]` on a list
    | NotSubscriptable(typeName: string)
    | MissingKey(key: string)         // KeyError
    | NoLen(typeName: string)         // `len(x)` on a value without a length

  /** Python's `type(v).__name__`. */
  function TypeName(v: Json): string
  {
    match v
    case Null => "NoneType"
    case Bool(_) => "bool"
    case Int(_) => "int"
    case Float(_) => "float"
    case Str(_) => "str"
    case Array(_) => "list"
    case Object(_) => "dict"
  }

  /** `str(e)` for each exception. */
  function Message(e: PyError): string
  {
    match e
    case NotContainer(t) => "argument of type '" + t + "' is not iterable"
    case StrIndex => "string indices must be integers, not 'str'"
    case ListIndex => "list indices must be integers or slices, not str"
    case NotSubscriptable(t) => "'" + t + "' object is not subscriptable"
    case MissingKey(k) => "'" + k + "'"
    case NoLen(t) => "object of type '" + t + "' has no len()"
  }

  /** `isinstance(x, (int, float))`: true of bool, int and float. */
  predicate IsNumber(x: Json)
  {
    x.Bool? || x.Int? || x.Float?
  }

  /** Whether `needle` occurs as a contiguous piece of `hay` at offset `i`. */
  ghost predicate OccursAt(needle: string, hay: string, i: int)
  {
    0 <= i && i + |needle| <= |hay| && hay[i..i + |needle|] == needle
  }

  /** `needle in hay` for two str values: a substring search from the left. */
  function Occurs(needle: string, hay: string): (r: bool)
    ensures r <==> exists i :: OccursAt(needle, hay, i)
    decreases |hay|
  {
    if |hay| < |needle| then
      assert forall i :: !OccursAt(needle, hay, i);
      false
    else if hay[..|needle|] == needle then
      assert OccursAt(needle, hay, 0);
      true
    else
      var rest := Occurs(needle, hay[1..]);
      assert forall i :: OccursAt(needle, hay[1..], i) <==> OccursAt(needle, hay, i + 1);
      assert !OccursAt(needle, hay, 0);
      assert forall i :: OccursAt(needle, hay, i) && i != 0 ==> OccursAt(needle, hay[1..], i - 1);
      rest
  }

  /** `key in container`, with key a str. */
  function Contains(container: Json, key: string): (r: Result<bool, PyError>)
    ensures r.Failure? <==> !(container.Str? || container.Array? || container.Object?)
    ensures r.Failure? ==> r.error == NotContainer(TypeName(container))
    ensures container.Object? ==> r == Success(key in container.fields)
    ensures container.Array? ==> r == Success(Str(key) in container.items)
    ensures container.Str? ==> r == Success(exists i :: OccursAt(key, container.s, i))
  {
    match container
    case Str(s) => Success(Occurs(key, s))
    case Array(xs) => Success(Str(key) in xs)
    case Object(m) => Success(key in m)
    case _ => Failure(NotContainer(TypeName(container)))
  }

  /** `container[key]`, with key a str. */
  function GetItem(container: Json, key: string): (r: Result<Json, PyError>)
    ensures container.Object? ==> (r.Success? <==> Contains(container, key) == Success(true))
    ensures r.Success? ==> container.Object? && r.value == container.fields[key]
    ensures container.Object? && r.Failure? ==> r.error == MissingKey(key)
    ensures container.Str? ==> r == Failure(StrIndex)
    ensures container.Array? ==> r == Failure(ListIndex)
    ensures !Sized(container) ==> r == Failure(NotSubscriptable(TypeName(container)))
  {
    match container
    case Object(m) => if key in m then Success(m[key]) else Failure(MissingKey(key))
    case Str(_) => Failure(StrIndex)
    case Array(_) => Failure(ListIndex)
    case _ => Failure(NotSubscriptable(TypeName(container)))
  }

  /** The values a str, list or dict has a length for, and that can be iterated. */
  predicate Sized(v: Json)
  {
    v.Str? || v.Array? || v.Object?
  }

  /** The keys of a dict, each once (the decoded map keeps no insertion order). */
  ghost function KeyList(keys: set<string>): (r: seq<string>)
    ensures |r| == |keys|
    ensures forall k :: k in r <==> k in keys
    decreases keys
  {
    if keys == {} then []
    else
      var k :| k in keys;
      [k] + KeyList(keys - {k})
  }

  /** What `for x in v` yields: a list's elements, a str's characters, a dict's keys. */
  ghost function Iterate(v: Json): seq<Json>
    requires Sized(v)
  {
    match v
    case Array(xs) => xs
    case Str(s) => Chars(s)
    case Object(m) =>
      var ks := KeyList(m.Keys);
      seq(|ks|, i requires 0 <= i < |ks| => Str(ks[i]))
    case _ => []
  }

  /** `len(v)`: the number of items iterating `v` yields, or a TypeError. */
  function Len(v: Json): (r: Result<nat, PyError>)
    ensures r.Success? <==> Sized(v)
    ensures r.Failure? ==> r.error == NoLen(TypeName(v))
    ensures r.Success? ==> r.value == |Iterate(v)|
  {
    match v
    case Str(s) => Success(|s|)
    case Array(xs) => Success(|xs|)
    case Object(m) => Success(|m|)
    case _ => Failure(NoLen(TypeName(v)))
  }

  /** The one-character strings that iterating over a str yields, in order. */
  function Chars(s: string): (r: seq<Json>)
    ensures |r| == |s|
    ensures forall x | x in r :: x.Str? && |x.s| == 1 && !IsNumber(x)
  {
    seq(|s|, i requires 0 <= i < |s| => Str([s[i]]))
  }

  /** `''.join(xs)` for a sequence of str values. */
  function Join(xs: seq<Json>): string
    requires forall x | x in xs :: x.Str?
  {
    if xs == [] then "" else xs[0].s + Join(xs[1..])
  }

  /** Joining the characters of a str gives the str back: iteration loses nothing and keeps order. */
  lemma {:induction false} JoinChars(s: string)
    ensures Join(Chars(s)) == s
  {
    if s != [] {
      assert Chars(s)[0] == Str([s[0]]);
      assert Chars(s)[1..] == Chars(s[1..]);
      JoinChars(s[1..]);
      assert [s[0]] + s[1..] == s;
    }
  }

  /** `all(isinstance(x, (int, float)) for x in xs)`, stopping at the first miss. */
  function AllNumbers(xs: seq<Json>): (r: bool)
    ensures r <==> forall i :: 0 <= i < |xs| ==> IsNumber(xs[i])
  {
    if xs == [] then true
    else if !IsNumber(xs[0]) then false
    else
      var rest := AllNumbers(xs[1..]);
      assert forall i :: 1 <= i < |xs| ==> xs[i] == xs[1..][i - 1];
      rest
  }

  /** The same `all(...)` over whatever iterating `v` yields. */
  function AllNumbersIn(v: Json): (r: bool)
    requires Sized(v)
    ensures r == AllNumbers(Iterate(v))
  {
    match v
    case Array(xs) => AllNumbers(xs)
    case Str(s) => AllNumbers(Chars(s))
    case Object(m) => forall k | k in m :: IsNumber(Str(k))
    case _ => false
  }

  /**
   * Only a list can pass the length-and-type test with a non-zero count: a
   * non-empty str yields strings, a non-empty dict yields its str keys.
   */
  lemma OnlyListsHoldNumbers(v: Json)
    requires Sized(v) && Len(v).value > 0 && AllNumbersIn(v)
    ensures v.Array?
  {
  }
}
