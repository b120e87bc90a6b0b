/**
 * The JavaScript values a decoded frame can hold, and the few operations the
 * client applies to them: truthiness tests, property reads `obj[key]`, property
 * writes `obj[key] = v`, and the string coercion `String(v)` that turns a
 * `message-id` into the key looked up in the pending-request table.
 */
module Json {

  import opened Wrappers
  import opened Ids

  /** A value produced by `JSON.parse`. Numbers are limited to integers. */
  datatype Value =
    | JNull
    | JBool(b: bool)
    | JNum(n: int)
    | JStr(s: string)
    | JArr(items: seq<Value>)
    | JObj(fields: seq<Field>)

  /** One property of an object, in insertion order. */
  datatype Field = Field(key: string, val: Value)

  /** JavaScript truthiness; `None` stands for `undefined`. */
  predicate Truthy(v: Option<Value>) {
    match v
    case None => false
    case Some(JNull) => false
    case Some(JBool(b)) => b
    case Some(JNum(n)) => n != 0
    case Some(JStr(s)) => s != ""
    case Some(JArr(_)) => true
    case Some(JObj(_)) => true
  }

  /** The keys of an object, in order. */
  function Keys(fields: seq<Field>): (ks: seq<string>)
    ensures |ks| == |fields|
  {
    if fields == [] then [] else [fields[0].key] + Keys(fields[1..])
  }

  /** `obj[key]` on an object's own properties: the first field with that key, else `undefined`. */
  function Lookup(fields: seq<Field>, key: string): (r: Option<Value>)
    ensures r.None? <==> key !in Keys(fields)
    ensures r.Some? ==> Field(key, r.value) in fields
  {
    if fields == [] then None
    else if fields[0].key == key then Some(fields[0].val)
    else Lookup(fields[1..], key)
  }

  /** `v[key]` for any decoded value: only objects have the properties the client reads. */
  function Get(v: Value, key: string): (r: Option<Value>)
    ensures r.Some? ==> v.JObj? && Field(key, r.value) in v.fields
    ensures v.JObj? && key in Keys(v.fields) ==> r.Some?
  {
    if v.JObj? then Lookup(v.fields, key) else None
  }

  /**
   * `obj[key] = val` for a key that is not an array index (such as
   * `message-id`): an existing property keeps its position and takes the new
   * value; a new property is appended at the end. JavaScript would order
   * integer-like keys first; the client never writes one.
   */
  function Put(fields: seq<Field>, key: string, val: Value): (r: seq<Field>)
    ensures key !in Keys(fields) ==> r == fields + [Field(key, val)]
  {
    if fields == [] then [Field(key, val)]
    else if fields[0].key == key then [Field(key, val)] + fields[1..]
    else
      assert Keys(fields) == [fields[0].key] + Keys(fields[1..]);
      [fields[0]] + Put(fields[1..], key, val)
  }

  /** After `obj[key] = val`, reading `obj[key]` gives `val`. */
  lemma {:induction false} LookupPutSame(fields: seq<Field>, key: string, val: Value)
    ensures Lookup(Put(fields, key, val), key) == Some(val)
  {
    if fields != [] && fields[0].key != key {
      LookupPutSame(fields[1..], key, val);
    }
  }

  /** `obj[key] = val` leaves every other property as it was. */
  lemma {:induction false} LookupPutOther(fields: seq<Field>, key: string, val: Value, other: string)
    requires other != key
    ensures Lookup(Put(fields, key, val), other) == Lookup(fields, other)
  {
    if fields != [] && fields[0].key != key {
      LookupPutOther(fields[1..], key, val, other);
    }
  }

  /** `String(n)` for an integer. */
  function IntString(n: int): string {
    if n < 0 then "-" + Decimal(-n) else Decimal(n)
  }

  /**
   * `String(v)`, or `None` where the conversion throws a TypeError. Arrays join
   * their elements' strings with commas (a `null` element gives the empty
   * string). An object gives "[object Object]" through the inherited
   * `toString`; an object with an own `toString` property throws, because a
   * decoded value is never callable and the inherited `valueOf` returns the
   * object itself rather than a primitive.
   */
  function JsString(v: Value): Option<string>
    decreases v
  {
    match v
    case JNull => Some("null")
    case JBool(b) => Some(if b then "true" else "false")
    case JNum(n) => Some(IntString(n))
    case JStr(s) => Some(s)
    case JArr(items) => JoinElements(items)
    case JObj(fields) => if "toString" in Keys(fields) then None else Some("[object Object]")
  }

  function JoinElements(items: seq<Value>): Option<string>
    decreases items
  {
    if items == [] then Some("")
    else
      var head := if items[0] == JNull then Some("") else JsString(items[0]);
      if head.None? then None
      else if |items| == 1 then head
      else
        match JoinElements(items[1..])
        case None => None
        case Some(rest) => Some(head.value + "," + rest)
  }

  /** Whether `v` is, or holds at any array depth, an object with an own `toString` property. */
  predicate HasOwnToString(v: Value)
    decreases v
  {
    match v
    case JObj(fields) => "toString" in Keys(fields)
    case JArr(items) => exists i :: 0 <= i < |items| && HasOwnToString(items[i])
    case _ => false
  }

  /** `String(v)` throws exactly when some object in `v` has an own `toString`. */
  lemma {:induction false} JsStringThrows(v: Value)
    ensures JsString(v).None? <==> HasOwnToString(v)
    decreases v, 1
  {
    match v
    case JArr(items) => JoinElementsThrows(items);
    case _ =>
  }

  lemma {:induction false} JoinElementsThrows(items: seq<Value>)
    ensures JoinElements(items).None? <==> exists i :: 0 <= i < |items| && HasOwnToString(items[i])
    decreases items, 0
  {
    if items != [] {
      JsStringThrows(items[0]);
      JoinElementsThrows(items[1..]);
      if |items| > 1 {
        forall i | 1 <= i < |items|
          ensures items[i] == items[1..][i - 1]
        {
        }
      }
    }
  }

  /**
   * The property key `obj[v]` uses: `String(v)`, and "undefined" for
   * `undefined`; `None` where the conversion throws.
   */
  function PropertyKey(v: Option<Value>): Option<string> {
    match v
    case None => Some("undefined")
    case Some(x) => JsString(x)
  }

  /** A numeric `message-id`, or a one-element array holding it, names the same entry as its decimal text. */
  lemma NumericKeys(n: nat)
    ensures PropertyKey(Some(JStr(Decimal(n)))) == Some(Decimal(n))
    ensures PropertyKey(Some(JNum(n))) == Some(Decimal(n))
    ensures PropertyKey(Some(JArr([JNum(n)]))) == Some(Decimal(n))
  {
    assert JsString(JNum(n)) == Some(Decimal(n));
    assert JoinElements([JNum(n)]) == JsString(JNum(n));
  }

  /**
   * An absent, null, boolean or object `message-id` never names an issued
   * identifier: its key is not canonical, or its conversion throws.
   */
  lemma NonNumericKeys(v: Option<Value>)
    requires v.None? || v == Some(JNull) || (v.Some? && (v.value.JBool? || v.value.JObj?))
    ensures PropertyKey(v).Some? ==> ParseId(PropertyKey(v).value).None?
  {
    if PropertyKey(v).Some? {
      var k := PropertyKey(v).value;
      assert !IsDigit(k[0]);
    }
  }

  /** An object `message-id` with an own `toString`, bare or inside an array, makes the key conversion throw. */
  lemma OwnToStringKeysThrow(x: Value)
    ensures PropertyKey(Some(JObj([Field("toString", x)]))).None?
    ensures PropertyKey(Some(JArr([JNum(1), JObj([Field("toString", x)])]))).None?
  {
    var o := JObj([Field("toString", x)]);
    assert Keys(o.fields) == ["toString"];
    assert JoinElements([o]).None?;
    var items := [JNum(1), o];
    assert items[1..] == [o];
    assert JsString(items[0]).Some?;
    assert JoinElements(items) == None;
  }
}
