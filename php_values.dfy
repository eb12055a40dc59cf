/** PHP values as the Skype adapter receives, stores and sends them, together with
    the three pieces of PHP semantics the adapter leans on: `empty()`, reading a key
    with `->` or `[]`, and the string PHP makes of a value when a string is
    expected. */
module PhpValues {

  datatype Option<+T> = None | Some(value: T)

  /** A decoded PHP value.
      - `Object` is a stdClass object, what `json_decode($text)` makes of a JSON object;
      - `Dict` is an associative array, what `json_decode($text, true)` makes of a JSON
        object and what callers hand over as `array(...)`;
      - `List` is a PHP list.
      JSON numbers are integers here. */
  datatype Value =
    | Null
    | Bool(b: bool)
    | Int(i: int)
    | Str(s: string)
    | List(items: seq<Value>)
    | Dict(entries: map<string, Value>)
    | Object(props: map<string, Value>)

  /** PHP's `empty()`: null, false, 0, "", "0" and the empty array. An object is never empty. */
  predicate Empty(v: Value) {
    match v
    case Null => true
    case Bool(b) => !b
    case Int(i) => i == 0
    case Str(s) => s == "" || s == "0"
    case List(items) => items == []
    case Dict(entries) => entries == map[]
    case Object(_) => false
  }

  /** PHP's `is_array()`. */
  predicate IsArray(v: Value) {
    v.List? || v.Dict?
  }

  /** `$v->key`: a property of a stdClass object. A missing property reads as null,
      and so does `->` on anything that is not an object, an array included (PHP adds
      a warning outside `empty()`, which is not modelled). */
  function Prop(v: Value, key: string): (r: Value)
    ensures !v.Object? ==> r == Null
    ensures v.Object? && key !in v.props ==> r == Null
  {
    match v
    case Object(props) => if key in props then props[key] else Null
    case _ => Null
  }

  /** `$v['key']` for a string key that is not numeric: an entry of an associative
      array. A missing key reads as null, and so does `[]` on a list, a scalar or null,
      which is what PHP gives inside `empty()`. Outside `empty()` PHP reads the first
      character of a non-empty string (PHP 7) or throws (PHP 8), and for `[]` on a
      stdClass object it throws everywhere; the model reads null in both cases. */
  function Index(v: Value, key: string): (r: Value)
    ensures !v.Dict? ==> r == Null
    ensures Empty(v) ==> Empty(r)
  {
    match v
    case Dict(entries) => if key in entries then entries[key] else Null
    case _ => Null
  }

  /** How the adapter reads a key: `->` on `json_decode($text)`, `[]` on arrays. */
  datatype Access = Arrow | Bracket

  function Read(v: Value, how: Access, key: string): Value {
    match how
    case Arrow => Prop(v, key)
    case Bracket => Index(v, key)
  }

  /** `json_decode($text)` in terms of `json_decode($text, true)`: every associative
      array becomes a stdClass object with the same entries; lists stay lists. */
  function AsObjects(v: Value): Value {
    match v
    case List(items) => List(seq(|items|, i requires 0 <= i < |items| => AsObjects(items[i])))
    case Dict(entries) => Object(map k | k in entries :: AsObjects(entries[k]))
    case _ => v
  }

  /** A value `json_decode($text, true)` can give for a text with no `{}` in it: no
      stdClass object and no empty associative array anywhere. (`{}` is `empty()` as
      an array but not as an object, so the two decodings disagree on it.) */
  predicate ArrayTree(v: Value) {
    match v
    case Object(_) => false
    case Dict(entries) => entries != map[] && forall k :: k in entries ==> ArrayTree(entries[k])
    case List(items) => forall i :: 0 <= i < |items| ==> ArrayTree(items[i])
    case _ => true
  }

  /** `->key` on the object decoding reads the object decoding of `['key']` on the
      array decoding. */
  lemma PropOfObjects(v: Value, key: string)
    requires !v.Object?
    ensures Prop(AsObjects(v), key) == AsObjects(Index(v, key))
  {
  }

  /** Without `{}`, `empty()` does not see which decoding it was given. */
  lemma EmptyOfObjects(v: Value)
    requires ArrayTree(v)
    ensures Empty(AsObjects(v)) == Empty(v)
  {
  }

  lemma IndexKeepsArrayTree(v: Value, key: string)
    requires ArrayTree(v)
    ensures ArrayTree(Index(v, key))
  {
  }

  /** The decimal digit for `d`. */
  function Digit(d: nat): (c: char)
    requires d < 10
    ensures '0' <= c <= '9'
  {
    (48 + d) as char
  }

  /** The decimal numeral of a natural number, without leading zeros. */
  function Natural(n: nat): (r: string)
    ensures |r| >= 1
    ensures r == "0" <==> n == 0
    ensures forall i :: 0 <= i < |r| ==> '0' <= r[i] <= '9'
  {
    if n < 10 then [Digit(n)] else Natural(n / 10) + [Digit(n % 10)]
  }

  /** PHP's string form of an integer. */
  function Decimal(i: int): (r: string)
    ensures |r| >= 1
    ensures forall k :: 0 <= k < |r| ==> ('0' <= r[k] <= '9') || (k == 0 && r[k] == '-')
  {
    if i < 0 then "-" + Natural(-i) else Natural(i)
  }

  /** The string PHP makes of a value where a string is expected (`preg_replace`'s
      subject, the `.` operator): null and false give "", true gives "1", an integer
      its numeral, an array "Array". PHP refuses to convert a stdClass object; the
      model gives "" there. */
  function Text(v: Value): (r: string)
    ensures !IsArray(v) && !v.Object? ==> (Empty(Str(r)) <==> Empty(v))
  {
    match v
    case Null => ""
    case Bool(b) => if b then "1" else ""
    case Int(i) => Decimal(i)
    case Str(s) => s
    case List(_) => "Array"
    case Dict(_) => "Array"
    case Object(_) => ""
  }
}
